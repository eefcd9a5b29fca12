/** `is_resource_active`: classify the resource, compute its expected count once, then
    re-read its current count once per second until the two agree or the wait budget
    is spent. */
module Readiness {
  import opened Results
  import opened Cib
  import opened Commands
  import opened Classifier
  import opened Counts

  /** How a run ends.
      - `Active`: `exit_json(msg="Resource <name> is active", changed=True)`;
      - `TimedOut`: `fail_json(msg="Max wait time of <max_wait> second reached ...")`;
      - `NotInCib`: `fail_json(msg="Resource '<name>' doesn't exist in the cib.")`;
      - `Raised(code)`: a `CalledProcessError` with that exit status escapes the module. */
  datatype Verdict = Active | TimedOut | NotInCib | Raised(code: int)

  /** A run's verdict, the number of one-second sleeps it made and the number of
      times it evaluated the current count. */
  datatype Report = Report(verdict: Verdict, sleeps: nat, countReads: nat)

  /** The number of current counts a run compares before timing out: `max_wait`, but
      always at least the first one. */
  function Budget(maxWait: int): (r: nat)
    ensures r >= 1 && r >= maxWait
    ensures maxWait >= 1 ==> r == maxWait
    ensures maxWait < 1 ==> r == 1
  {
    if maxWait >= 1 then maxWait else 1
  }

  /** The `while` loop of `is_resource_active`, entered at try `current` (the loop's
      `current_try`) with `count(i)` the current count read at try `i`. The loop stops
      with `Active` on the first try whose count equals `expected`, and with `TimedOut`
      once `current_try >= max_tries - 1`, the source's deliberate off-by-one. */
  function Poll(expected: int, count: nat -> nat, maxWait: int, current: nat): (r: Report)
    ensures r.verdict == Active || r.verdict == TimedOut
    ensures r.countReads == r.sleeps + 1
    ensures current <= r.sleeps < Budget(maxWait) || r.sleeps == current >= Budget(maxWait)
    ensures forall i :: current <= i < r.sleeps ==> count(i) != expected
    ensures r.verdict == Active <==> count(r.sleeps) == expected
    ensures r.verdict == TimedOut ==> r.sleeps + 1 == Budget(maxWait) || r.sleeps == current >= Budget(maxWait)
    decreases maxWait - current
  {
    if count(current) == expected then Report(Active, current, current + 1)
    else if current >= maxWait - 1 then Report(TimedOut, current, current + 1)
    else Poll(expected, count, maxWait, current + 1)
  }

  /** The current count a run reads at try `i`: call 0 of `crm_mon` serves the
      classifier, so try `i` sees the document of call `i + 1`. */
  function CountAtTry(kind: Kind, name: string, cluster: Cluster, i: nat): nat
  {
    CurrentCount(kind, name, cluster.status(i + 1))
  }

  /** `CountAtTry` as the sequence of reads the loop consumes. */
  function CountAt(kind: Kind, name: string, cluster: Cluster): nat -> nat
  {
    i => CountAtTry(kind, name, cluster, i)
  }

  /** The whole run of `is_resource_active` for `resource = name` and `max_wait = maxWait`.
      An unknown resource and a failing meta lookup end the run before any current
      count is read; every other run reads one count more than it sleeps, and never
      more than its budget. */
  function Reconcile(name: string, maxWait: int, cluster: Cluster): (r: Report)
    ensures r.verdict == NotInCib <==> ResourceTypeOf(cluster.status(0), name).None?
    ensures r.verdict.Raised? ==> r.verdict.code != AttributeNotSet
    ensures r.countReads == 0 <==> r.verdict == NotInCib || r.verdict.Raised?
    ensures r.countReads == 0 ==> r.sleeps == 0
    ensures r.countReads > 0 ==> r.countReads == r.sleeps + 1 <= Budget(maxWait)
  {
    match ResourceTypeOf(cluster.status(0), name)
    case None => Report(NotInCib, 0, 0)
    case Some(kind) =>
      match ExpectedCount(kind, name, cluster)
      case Err(code) => Report(Raised(code), 0, 0)
      case Ok(expected) => Poll(expected, CountAt(kind, name, cluster), maxWait, 0)
  }

  /** `is_resource_active` as the source writes it: one classification, one expected
      count, then the polling loop. */
  method IsResourceActive(name: string, maxWait: int, cluster: Cluster) returns (report: Report)
    ensures report == Reconcile(name, maxWait, cluster)
  {
    var kind := ResourceTypeOf(cluster.status(0), name);
    if kind.None? {
      return Report(NotInCib, 0, 0);
    }
    var outcome := ExpectedCount(kind.value, name, cluster);
    if outcome.Err? {
      return Report(Raised(outcome.code), 0, 0);
    }
    var expected := outcome.value;
    var currentTry: nat := 0;
    var current := CountAtTry(kind.value, name, cluster, 0);
    while expected != current
      invariant current == CountAt(kind.value, name, cluster)(currentTry)
      invariant Poll(expected, CountAt(kind.value, name, cluster), maxWait, currentTry) == Reconcile(name, maxWait, cluster)
      decreases maxWait - currentTry
    {
      if currentTry >= maxWait - 1 {
        return Report(TimedOut, currentTry, currentTry + 1);
      }
      currentTry := currentTry + 1;
      current := CountAtTry(kind.value, name, cluster, currentTry);
    }
    return Report(Active, currentTry, currentTry + 1);
  }

  /** An unknown resource fails at once: no expected or current count is evaluated
      and the run never sleeps. */
  lemma UnknownShortCircuits(name: string, maxWait: int, cluster: Cluster)
    requires ResourceTypeOf(cluster.status(0), name).None?
    ensures Reconcile(name, maxWait, cluster) == Report(NotInCib, 0, 0)
  {
  }

  /** A failing meta lookup escapes before any current count is read. */
  lemma LookupFailureEscapes(name: string, maxWait: int, cluster: Cluster, kind: Kind, code: int)
    requires ResourceTypeOf(cluster.status(0), name) == Some(kind)
    requires ExpectedCount(kind, name, cluster) == Err(code)
    ensures Reconcile(name, maxWait, cluster) == Report(Raised(code), 0, 0)
    ensures code != AttributeNotSet
  {
    ExpectedCountFailures(kind, name, cluster);
  }

  /** The polling verdict. With `expected` fixed, the run is `Active` exactly when
      one of the first `Budget(maxWait)` current counts equals it; it then has slept
      once per earlier mismatching try. Otherwise it times out after `Budget - 1`
      sleeps, having read `Budget` counts. */
  lemma {:induction false} PollVerdict(expected: int, count: nat -> nat, maxWait: int)
    ensures Poll(expected, count, maxWait, 0).verdict == Active <==>
              exists i :: 0 <= i < Budget(maxWait) && count(i) == expected
    ensures Poll(expected, count, maxWait, 0).verdict == Active ==>
              && count(Poll(expected, count, maxWait, 0).sleeps) == expected
              && forall i :: 0 <= i < Poll(expected, count, maxWait, 0).sleeps ==> count(i) != expected
    ensures Poll(expected, count, maxWait, 0).verdict == TimedOut ==>
              && Poll(expected, count, maxWait, 0).sleeps == Budget(maxWait) - 1
              && Poll(expected, count, maxWait, 0).countReads == Budget(maxWait)
  {
    var r := Poll(expected, count, maxWait, 0);
    if r.verdict == TimedOut {
      forall i | 0 <= i < Budget(maxWait)
        ensures count(i) != expected
      {
        if i == r.sleeps {
          // the try that timed out mismatched, by `Poll`'s if-and-only-if on `Active`
          assert count(r.sleeps) != expected;
        }
      }
    }
  }

  /** The verdict of a whole run whose resource is classified and whose expected
      count is available: `Active` exactly when a current count read within the budget
      equals the expected one. */
  lemma RunVerdict(name: string, maxWait: int, cluster: Cluster, kind: Kind, expected: int)
    requires ResourceTypeOf(cluster.status(0), name) == Some(kind)
    requires ExpectedCount(kind, name, cluster) == Ok(expected)
    ensures Reconcile(name, maxWait, cluster).verdict == Active <==>
              exists i :: 0 <= i < Budget(maxWait) && CountAtTry(kind, name, cluster, i) == expected
    ensures Reconcile(name, maxWait, cluster).verdict == TimedOut ==>
              Reconcile(name, maxWait, cluster).sleeps == Budget(maxWait) - 1
  {
    var count := CountAt(kind, name, cluster);
    assert Reconcile(name, maxWait, cluster) == Poll(expected, count, maxWait, 0);
    PollVerdict(expected, count, maxWait);
    assert forall i: nat :: count(i) == CountAtTry(kind, name, cluster, i);
  }

  /** A cluster whose status does not change between `crm_mon` calls: the run is
      active at once when the current count equals the expected one, and otherwise
      times out after its whole budget of reads. */
  lemma SteadyClusterRun(name: string, maxWait: int, cluster: Cluster, doc: Element, kind: Kind, expected: int)
    requires forall i :: cluster.status(i) == doc
    requires ResourceTypeOf(doc, name) == Some(kind)
    requires ExpectedCount(kind, name, cluster) == Ok(expected)
    ensures CurrentCount(kind, name, doc) == expected ==> Reconcile(name, maxWait, cluster) == Report(Active, 0, 1)
    ensures CurrentCount(kind, name, doc) != expected ==>
              Reconcile(name, maxWait, cluster) == Report(TimedOut, Budget(maxWait) - 1, Budget(maxWait))
  {
    forall i: nat
      ensures CountAtTry(kind, name, cluster, i) == CurrentCount(kind, name, doc)
    {
      assert cluster.status(i + 1) == doc;
    }
    RunVerdict(name, maxWait, cluster, kind, expected);
  }

  /** A match on the first read makes the run active without sleeping. */
  lemma ImmediateMatch(expected: int, count: nat -> nat, maxWait: int)
    requires count(0) == expected
    ensures Poll(expected, count, maxWait, 0) == Report(Active, 0, 1)
  {
  }

  /** Expected 3 and current 3 with `max_wait` 5: active at once. */
  lemma ActiveAtOnceScenario()
    ensures Poll(3, _ => 3, 5, 0) == Report(Active, 0, 1)
  {
  }

  /** Expected 1 and current counts 0, 0, 0 with `max_wait` 3: timed out after two
      sleeps and three reads, never active. */
  lemma TimeoutScenario()
    ensures Poll(1, _ => 0, 3, 0) == Report(TimedOut, 2, 3)
  {
  }
}
