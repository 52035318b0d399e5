/** The severity given to a request's parent entry: derived from the HTTP status
    when no child line was tracked, otherwise Python's `min` over the tracked
    level NAMES. The comment above that code speaks of the maximum level; the
    lemmas below say exactly where the two agree. */
module Severity {
  import opened Wrappers
  import opened Levels
  import opened LexOrder

  /** Numeric level of a tracked name (0 for a name that is not a level). */
  function Priority(name: string): int
  {
    LevelNumber(name).Otherwise(0)
  }

  /** Severity of a request in which nothing was tracked. */
  function StatusSeverity(status: int): (r: string)
    ensures r == Error.Name() <==> status >= 500
    ensures r == Warning.Name() <==> 400 <= status < 500
    ensures r == Info.Name() <==> status < 400
  {
    if status >= 500 then Error.Name()
    else if status >= 400 then Warning.Name()
    else Info.Name()
  }

  /** A worse status never yields a milder severity. */
  lemma StatusSeverityMonotonic(s1: int, s2: int)
    requires s1 <= s2
    ensures Priority(StatusSeverity(s1)) <= Priority(StatusSeverity(s2))
    ensures Priority(StatusSeverity(s1)) >= Threshold
  {
  }

  /** Severity of the parent entry given the tracked names and the response status. */
  function ParentSeverity(tracked: seq<string>, status: int): (r: string)
    ensures |tracked| == 0 ==> r == StatusSeverity(status)
    ensures |tracked| > 0 ==> r in tracked && forall x :: x in tracked ==> LexLe(r, x)
  {
    if |tracked| == 0 then StatusSeverity(status)
    else MinIsLeast(tracked); Min(tracked)
  }

  /** The names a record produced by `logging` can carry and still pass the
      root logger's threshold. */
  predicate Trackable(name: string)
  {
    exists l: Level :: l.Number() >= Threshold && l.Name() == name
  }

  lemma TrackableNames(name: string)
    ensures Trackable(name) <==>
      name == Info.Name() || name == Warning.Name() || name == Error.Name() || name == Critical.Name()
  {
    if name == Info.Name() { assert Info.Name() == name; }
    if name == Warning.Name() { assert Warning.Name() == name; }
    if name == Error.Name() { assert Error.Name() == name; }
    if name == Critical.Name() { assert Critical.Name() == name; }
  }

  /** The lexicographic order of the trackable names: CRITICAL < ERROR < INFO < WARNING. */
  lemma TrackableOrder()
    ensures LexLt(Critical.Name(), Error.Name())
    ensures LexLt(Error.Name(), Info.Name())
    ensures LexLt(Info.Name(), Warning.Name())
    ensures !LexLe(Error.Name(), Critical.Name())
    ensures !LexLe(Info.Name(), Error.Name()) && !LexLe(Info.Name(), Critical.Name())
    ensures !LexLe(Warning.Name(), Info.Name()) && !LexLe(Warning.Name(), Error.Name())
    ensures !LexLe(Warning.Name(), Critical.Name())
  {
  }

  /** Over names a request can track, the lexicographic minimum has the highest
      level in the list (what the source's comment intends) exactly unless the list
      holds both INFO and WARNING and neither ERROR nor CRITICAL: then the parent
      is INFO although a WARNING was logged. */
  lemma {:induction false} MinAgreesWithMaxIff(tracked: seq<string>, status: int)
    requires |tracked| > 0
    requires forall x :: x in tracked ==> Trackable(x)
    ensures (forall x :: x in tracked ==> Priority(x) <= Priority(ParentSeverity(tracked, status)))
        <==> !(Info.Name() in tracked && Warning.Name() in tracked
               && Error.Name() !in tracked && Critical.Name() !in tracked)
  {
    var r := ParentSeverity(tracked, status);
    TrackableOrder();
    TrackableNames(r);
    forall x | x in tracked
      ensures x == Info.Name() || x == Warning.Name() || x == Error.Name() || x == Critical.Name()
    {
      TrackableNames(x);
    }
    if Critical.Name() in tracked {
      assert r == Critical.Name();
    } else if Error.Name() in tracked {
      assert r == Error.Name();
    } else if Info.Name() in tracked {
      assert r == Info.Name();
    } else {
      assert r == Warning.Name();
    }
  }

  /** The two cases worked out: [INFO, ERROR, WARNING] gives ERROR, the most severe;
      [INFO, WARNING] gives INFO, the less severe. */
  lemma Examples(status: int)
    ensures ParentSeverity(["INFO", "ERROR", "WARNING"], status) == "ERROR"
    ensures ParentSeverity(["INFO", "WARNING"], status) == "INFO"
    ensures ParentSeverity([], 200) == "INFO"
    ensures ParentSeverity([], 404) == "WARNING"
    ensures ParentSeverity([], 503) == "ERROR"
  {
    TrackableOrder();
    MinIsLeast(["INFO", "ERROR", "WARNING"]);
    MinIsLeast(["INFO", "WARNING"]);
  }
}
