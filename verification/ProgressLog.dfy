/** The throttle on progress lines in the download log. */
module ProgressLog {
  import opened Basics

  /** A hook call as the throttle sees it: the time, whether yt-dlp reports "downloading", and the
      percentage when it is known. */
  datatype Hook = Hook(now: real, downloading: bool, pct: Pct)
  datatype Pct = Unknown | Known(value: real)

  /** The two variables the hook closes over. */
  datatype Throttle = Throttle(lastInfo: real, lastPct: real)

  const FRESH := Throttle(0.0, -100.0)

  predicate Emits(t: Throttle, h: Hook) {
    if !h.downloading then true
    else if h.pct.Unknown? then h.now - t.lastInfo >= 2.0
    else h.pct.value - t.lastPct >= 10.0 || h.now - t.lastInfo >= 3.0
  }

  function After(t: Throttle, h: Hook): Throttle {
    if !Emits(t, h) then t
    else Throttle(h.now, if h.downloading && h.pct.Known? then h.pct.value else t.lastPct)
  }

  /** The state after these hook calls, and the INFO lines they emitted. */
  function Run(t: Throttle, hooks: seq<Hook>): (Throttle, nat)
    decreases |hooks|
  {
    if hooks == [] then (t, 0)
    else
      var (t', n) := Run(After(t, hooks[0]), hooks[1..]);
      (t', n + if Emits(t, hooks[0]) then 1 else 0)
  }

  /** The lines no throttle holds back: those of hooks that do not report a running download. */
  function Free(hooks: seq<Hook>): nat {
    if hooks == [] then 0 else Free(hooks[1..]) + if hooks[0].downloading then 0 else 1
  }

  /** The clock does not go back, and percentages lie between 0 and `top`, which an estimated total can
      put above 100. */
  ghost predicate Clocked(hooks: seq<Hook>, top: real) {
    && (forall i, j :: 0 <= i < j < |hooks| ==> hooks[i].now <= hooks[j].now)
    && (forall i :: 0 <= i < |hooks| && hooks[i].pct.Known? ==> 0.0 <= hooks[i].pct.value <= top)
  }

  ghost predicate AllKnown(hooks: seq<Hook>) {
    forall i :: 0 <= i < |hooks| && hooks[i].downloading ==> hooks[i].pct.Known?
  }

  predicate Reports(h: Hook) {
    h.downloading && h.pct.Known?
  }

  /** The last percentage reported after `h`, whether or not a line was written. */
  function Reported(last: real, h: Hook): real {
    if Reports(h) then h.pct.value else last
  }

  /** How often a reported percentage is below the one reported before. */
  function Falls(last: real, hooks: seq<Hook>): nat
    decreases |hooks|
  {
    if hooks == [] then 0
    else Falls(Reported(last, hooks[0]), hooks[1..]) + if Reported(last, hooks[0]) < last then 1 else 0
  }

  // ---- The bound ----

  /** The lines percentages can still cause while they grow: the first known one always does, then one
      per ten. */
  function PctLines(lastPct: real, top: real): real {
    if lastPct < 0.0 then 1.0 + top / 10.0 else (top - lastPct) / 10.0
  }

  /** The lines a fall will cause that the throttle has not seen yet. */
  function Arrears(t: Throttle, last: real, top: real): real {
    if last < t.lastPct then top / 10.0 else 0.0
  }

  /** The lines still possible until `end`; `due` is what the falls to come will cause. */
  function Budget(t: Throttle, last: real, due: real, end: real, pace: real, top: real): real
    requires pace > 0.0
  {
    PctLines(t.lastPct, top) + Arrears(t, last, top) + due + (end - t.lastInfo) / pace
  }

  predicate InRange(t: Throttle, last: real, top: real) {
    (t.lastPct == last == FRESH.lastPct) || (0.0 <= t.lastPct <= top && 0.0 <= last <= top)
  }

  ghost predicate Follows(t: Throttle, last: real, hooks: seq<Hook>, end: real, top: real) {
    && t.lastInfo <= end
    && InRange(t, last, top)
    && forall i :: 0 <= i < |hooks| ==> t.lastInfo <= hooks[i].now <= end
  }

  lemma FollowsOn(t: Throttle, last: real, hooks: seq<Hook>, end: real, top: real)
    requires Clocked(hooks, top) && Follows(t, last, hooks, end, top) && hooks != []
    ensures Clocked(hooks[1..], top) && (AllKnown(hooks) ==> AllKnown(hooks[1..]))
    ensures Follows(After(t, hooks[0]), Reported(last, hooks[0]), hooks[1..], end, top)
  {
  }

  function Cost(t: Throttle, h: Hook): nat {
    if Emits(t, h) && h.downloading then 1 else 0
  }

  lemma RunHead(t: Throttle, hooks: seq<Hook>)
    requires hooks != []
    ensures Run(t, hooks).1 - Free(hooks)
      == Run(After(t, hooks[0]), hooks[1..]).1 - Free(hooks[1..]) + Cost(t, hooks[0])
  {
  }

  lemma Waited(since: real, now: real, end: real, pace: real)
    requires since <= now && (pace == 2.0 || pace == 3.0)
    ensures (end - now) / pace == (end - since) / pace - (now - since) / pace
    ensures (now - since) / pace >= 0.0
    ensures now - since >= pace ==> (now - since) / pace >= 1.0
  {
  }

  /** What so many falls are going to cause. */
  function Due(falls: nat, each: real): real {
    falls as real * each
  }

  lemma OneMoreDue(n: nat, each: real)
    ensures Due(n + 1, each) == Due(n, each) + each
  {
    assert (n + 1) as real == n as real + 1.0;
  }

  /** What one report adds to what is due. */
  lemma DueHead(last: real, hooks: seq<Hook>, each: real)
    requires hooks != []
    ensures Due(Falls(last, hooks), each) == Due(Falls(Reported(last, hooks[0]), hooks[1..]), each)
      + if Reported(last, hooks[0]) < last then each else 0.0
  {
    OneMoreDue(Falls(Reported(last, hooks[0]), hooks[1..]), each);
    hide Due;
  }

  /** Every throttled line uses up ten percent, `pace` seconds, or part of a fall. */
  lemma OneLine(t: Throttle, last: real, h: Hook, due: real, pace: real, end: real, top: real)
    requires t.lastInfo <= h.now && InRange(t, last, top) && top >= 0.0
    requires h.pct.Known? ==> 0.0 <= h.pct.value <= top
    requires pace == 2.0 || (pace == 3.0 && (h.downloading ==> h.pct.Known?))
    ensures Cost(t, h) as real + Budget(After(t, h), Reported(last, h), due, end, pace, top)
      <= Budget(t, last, due + if Reported(last, h) < last then top / 10.0 else 0.0, end, pace, top)
  {
    Waited(t.lastInfo, h.now, end, pace);
  }

  lemma {:induction false} Potential(t: Throttle, last: real, hooks: seq<Hook>, end: real, pace: real, top: real)
    requires Clocked(hooks, top) && Follows(t, last, hooks, end, top) && top >= 0.0
    requires pace == 2.0 || (pace == 3.0 && AllKnown(hooks))
    ensures (Run(t, hooks).1 - Free(hooks)) as real
      <= Budget(t, last, Due(Falls(last, hooks), top / 10.0), end, pace, top)
    decreases |hooks|
  {
    if hooks == [] {
      Waited(t.lastInfo, end, end, pace);
    } else {
      var next, tail := Reported(last, hooks[0]), hooks[1..];
      FollowsOn(t, last, hooks, end, top);
      Potential(After(t, hooks[0]), next, tail, end, pace, top);
      OneLine(t, last, hooks[0], Due(Falls(next, tail), top / 10.0), pace, end, top);
      DueHead(last, hooks, top / 10.0);
      RunHead(t, hooks);
    }
  }

  lemma StartsWell(hooks: seq<Hook>, top: real)
    requires Clocked(hooks, top) && hooks != [] && (hooks[0].now >= 0.0 || Emits(FRESH, hooks[0]))
    ensures Follows(After(FRESH, hooks[0]), Reported(FRESH.lastPct, hooks[0]), hooks[1..],
                    hooks[|hooks| - 1].now, top)
    ensures Clocked(hooks[1..], top) && (AllKnown(hooks) ==> AllKnown(hooks[1..]))
  {
  }

  function Span(hooks: seq<Hook>): real
    requires hooks != []
  {
    hooks[|hooks| - 1].now - hooks[0].now
  }

  lemma FirstLine(h: Hook, due: real, end: real, pace: real, top: real)
    requires top >= 0.0 && (h.pct.Known? ==> 0.0 <= h.pct.value <= top)
    requires (pace == 2.0 && h.now >= 0.0) || (pace == 3.0 && (h.downloading ==> h.pct.Known?))
    ensures Cost(FRESH, h) as real
      + Budget(After(FRESH, h), Reported(FRESH.lastPct, h), due, end, pace, top)
      <= (if pace == 2.0 then 2.0 else 1.0) + top / 10.0 + due + (end - h.now) / pace
  {
  }

  /** The hooks after the first, from the state the first leaves. */
  lemma WholeRun(hooks: seq<Hook>, pace: real, top: real)
    requires Clocked(hooks, top) && hooks != [] && top >= 0.0
    requires (pace == 2.0 && hooks[0].now >= 0.0) || (pace == 3.0 && AllKnown(hooks))
    ensures (Run(FRESH, hooks).1 - Free(hooks)) as real
      <= (if pace == 2.0 then 2.0 else 1.0) + top / 10.0
       + Due(Falls(FRESH.lastPct, hooks), top / 10.0) + Span(hooks) / pace
  {
    var next, tail, end := Reported(FRESH.lastPct, hooks[0]), hooks[1..], hooks[|hooks| - 1].now;
    StartsWell(hooks, top);
    Potential(After(FRESH, hooks[0]), next, tail, end, pace, top);
    FirstLine(hooks[0], Due(Falls(next, tail), top / 10.0), end, pace, top);
    DueHead(FRESH.lastPct, hooks, top / 10.0);
    RunHead(FRESH, hooks);
  }

  /** Hooks whose percentage is known throughout write at most 11 lines, ten more for each time it
      falls, and one more for every three seconds, besides the lines of other statuses. In general the
      tenth part of the highest percentage stands in for ten. */
  lemma FallsBound(hooks: seq<Hook>, top: real)
    requires Clocked(hooks, top) && AllKnown(hooks) && hooks != [] && top >= 0.0
    ensures var d := Falls(FRESH.lastPct, hooks) as real;
      (Run(FRESH, hooks).1 - Free(hooks)) as real <= 1.0 + top / 10.0 + d * (top / 10.0) + Span(hooks) / 3.0
    ensures top == 100.0 ==>
      (Run(FRESH, hooks).1 - Free(hooks)) as real
        <= 11.0 + 10.0 * Falls(FRESH.lastPct, hooks) as real + Span(hooks) / 3.0
  {
    WholeRun(hooks, 3.0, top);
  }

  /** When the percentage is sometimes unknown: at most 12, and one more for every two seconds. */
  lemma FallsBoundUnknown(hooks: seq<Hook>, top: real)
    requires Clocked(hooks, top) && hooks != [] && hooks[0].now >= 0.0 && top >= 0.0
    ensures var d := Falls(FRESH.lastPct, hooks) as real;
      (Run(FRESH, hooks).1 - Free(hooks)) as real <= 2.0 + top / 10.0 + d * (top / 10.0) + Span(hooks) / 2.0
    ensures top == 100.0 ==>
      (Run(FRESH, hooks).1 - Free(hooks)) as real
        <= 12.0 + 10.0 * Falls(FRESH.lastPct, hooks) as real + Span(hooks) / 2.0
  {
    WholeRun(hooks, 2.0, top);
  }

  // ---- Percentages that do not fall ----

  /** Reported percentages never go down. */
  ghost predicate Steady(last: real, hooks: seq<Hook>) {
    && (forall i :: 0 <= i < |hooks| && Reports(hooks[i]) ==> last <= hooks[i].pct.value)
    && (forall i, j :: 0 <= i < j < |hooks| && Reports(hooks[i]) && Reports(hooks[j]) ==>
          hooks[i].pct.value <= hooks[j].pct.value)
  }

  lemma {:induction false} SteadyNeverFalls(last: real, hooks: seq<Hook>)
    requires Steady(last, hooks)
    ensures Falls(last, hooks) == 0
    decreases |hooks|
  {
    if hooks != [] {
      SteadyNeverFalls(Reported(last, hooks[0]), hooks[1..]);
    }
  }

  /** While the percentage is known and does not fall, as for one file: 11 lines and one more for every
      three seconds. */
  lemma LineBound(hooks: seq<Hook>)
    requires Clocked(hooks, 100.0) && Steady(0.0, hooks) && AllKnown(hooks) && hooks != []
    ensures (Run(FRESH, hooks).1 - Free(hooks)) as real <= 11.0 + Span(hooks) / 3.0
  {
    SteadyNeverFalls(FRESH.lastPct, hooks);
    FallsBound(hooks, 100.0);
  }

  lemma LineBoundUnknown(hooks: seq<Hook>)
    requires Clocked(hooks, 100.0) && Steady(0.0, hooks) && hooks != [] && hooks[0].now >= 0.0
    ensures (Run(FRESH, hooks).1 - Free(hooks)) as real <= 12.0 + Span(hooks) / 2.0
  {
    SteadyNeverFalls(FRESH.lastPct, hooks);
    FallsBoundUnknown(hooks, 100.0);
  }

  // ---- The bounds are reached ----

  lemma {:induction false} RunConcat(t: Throttle, a: seq<Hook>, b: seq<Hook>)
    ensures Run(t, a + b) == (Run(Run(t, a).0, b).0, Run(t, a).1 + Run(Run(t, a).0, b).1)
    decreases |a|
  {
    if a == [] {
      assert a + b == b;
    } else {
      assert (a + b)[1..] == a[1..] + b;
      RunConcat(After(t, a[0]), a[1..], b);
    }
  }

  lemma RunCons(t: Throttle, h: Hook, rest: seq<Hook>)
    ensures Run(t, [h] + rest).1 == Run(After(t, h), rest).1 + if Emits(t, h) then 1 else 0
  {
    assert ([h] + rest)[1..] == rest;
  }

  function LastReported(last: real, hooks: seq<Hook>): real
    decreases |hooks|
  {
    if hooks == [] then last else LastReported(Reported(last, hooks[0]), hooks[1..])
  }

  lemma {:induction false} FallsConcat(last: real, a: seq<Hook>, b: seq<Hook>)
    ensures Falls(last, a + b) == Falls(last, a) + Falls(LastReported(last, a), b)
    decreases |a|
  {
    if a == [] {
      assert a + b == b;
    } else {
      assert (a + b)[1..] == a[1..] + b;
      FallsConcat(Reported(last, a[0]), a[1..], b);
    }
  }

  /** Percentages k * 10, ..., 90, 100, reported in one instant. */
  function Ramp(k: nat, at: real): seq<Hook>
    requires k <= 10
    decreases 10 - k
  {
    var h := Hook(at, true, Known(10.0 * k as real));
    if k == 10 then [h] else [h] + Ramp(k + 1, at)
  }

  lemma {:induction false} RampRun(t: Throttle, last: real, k: nat, at: real)
    requires k <= 10 && (10.0 * k as real - t.lastPct >= 10.0 || at - t.lastInfo >= 3.0)
    ensures Run(t, Ramp(k, at)) == (Throttle(at, 100.0), 11 - k)
    ensures Falls(last, Ramp(k, at)) == if 10.0 * k as real < last then 1 else 0
    ensures LastReported(last, Ramp(k, at)) == 100.0
    decreases 10 - k
  {
    var now := 10.0 * k as real;
    if k == 10 {
      assert Ramp(k, at)[1..] == [];
    } else {
      assert Ramp(k, at)[1..] == Ramp(k + 1, at);
      RampRun(Throttle(at, now), now, k + 1, at);
    }
  }

  /** `n` files fetched one after the other through one hook, three seconds apart. */
  function Ramps(at: real, n: nat): seq<Hook>
    decreases n
  {
    if n == 0 then [] else Ramp(0, at) + Ramps(at + 3.0, n - 1)
  }

  lemma {:induction false} RampsRun(t: Throttle, last: real, at: real, n: nat)
    requires t.lastPct <= -10.0 || at - t.lastInfo >= 3.0
    requires last <= 0.0 || last == 100.0
    ensures Run(t, Ramps(at, n)).1 == 11 * n
    ensures Falls(last, Ramps(at, n)) == if n > 0 && last <= 0.0 then n - 1 else n
    decreases n
  {
    if n > 0 {
      RampRun(t, last, 0, at);
      RunConcat(t, Ramp(0, at), Ramps(at + 3.0, n - 1));
      FallsConcat(last, Ramp(0, at), Ramps(at + 3.0, n - 1));
      RampsRun(Throttle(at, 100.0), 100.0, at + 3.0, n - 1);
    }
  }

  lemma {:induction false} RampShape(k: nat, at: real)
    requires k <= 10
    ensures |Ramp(k, at)| == 11 - k
    ensures forall i :: 0 <= i < |Ramp(k, at)| ==> Ramp(k, at)[i] == Hook(at, true, Known(10.0 * (k + i) as real))
    decreases 10 - k
  {
    if k < 10 {
      RampShape(k + 1, at);
    }
  }

  ghost predicate Ramped(h: Hook, from: real, to: real) {
    Reports(h) && 0.0 <= h.pct.value <= 100.0 && from <= h.now <= to
  }

  /** Hooks like those of some files, from the first to the last second of theirs. */
  ghost predicate RampedBetween(hooks: seq<Hook>, from: real, to: real) {
    && hooks != [] && hooks[0].now == from && hooks[|hooks| - 1].now == to
    && Clocked(hooks, 100.0) && forall h :: h in hooks ==> Ramped(h, from, to)
  }

  lemma RampedConcat(a: seq<Hook>, b: seq<Hook>, from: real, mid: real, to: real)
    requires RampedBetween(a, from, from) && RampedBetween(b, mid, to) && from <= mid <= to
    ensures RampedBetween(a + b, from, to)
  {
    forall i, j | 0 <= i < j < |a + b|
      ensures (a + b)[i].now <= (a + b)[j].now
    {
      if i < |a| <= j {
        assert Ramped(a[i], from, from) && Ramped(b[j - |a|], mid, to);
      }
    }
  }

  /** When the last of `n` files is fetched. */
  function LastFile(at: real, n: nat): real
    requires n > 0
  {
    at + 3.0 * (n - 1) as real
  }

  lemma LaterFile(at: real, n: nat)
    requires n > 1
    ensures LastFile(at + 3.0, n - 1) == LastFile(at, n) >= at + 3.0
  {
  }

  lemma OneRamp(at: real)
    ensures RampedBetween(Ramp(0, at), at, at) && |Ramp(0, at)| == 11 && Ramps(at, 1) == Ramp(0, at)
  {
    RampShape(0, at);
    assert Ramp(0, at) + [] == Ramp(0, at);
  }

  lemma {:induction false} RampsShape(at: real, n: nat)
    requires n > 0
    ensures RampedBetween(Ramps(at, n), at, LastFile(at, n)) && |Ramps(at, n)| == 11 * n
    decreases n
  {
    OneRamp(at);
    if n > 1 {
      assert Ramps(at, n) == Ramp(0, at) + Ramps(at + 3.0, n - 1);
      LaterFile(at, n);
      hide *;
      RampsShape(at + 3.0, n - 1);
      RampedConcat(Ramp(0, at), Ramps(at + 3.0, n - 1), at, at + 3.0, LastFile(at, n));
    }
  }

  lemma {:induction false} NothingFree(hooks: seq<Hook>)
    requires forall i :: 0 <= i < |hooks| ==> hooks[i].downloading
    ensures Free(hooks) == 0
  {
    if hooks != [] {
      NothingFree(hooks[1..]);
    }
  }

  lemma RampedReports(hooks: seq<Hook>, from: real, to: real)
    requires forall h :: h in hooks ==> Ramped(h, from, to)
    ensures AllKnown(hooks) && forall i :: 0 <= i < |hooks| ==> hooks[i].downloading
  {
    assert forall i :: 0 <= i < |hooks| ==> hooks[i] in hooks;
  }

  lemma SameBound(n: nat)
    requires n > 0
    ensures (11 * n) as real == 11.0 + 10.0 * (n - 1) as real + (LastFile(5.0, n) - 5.0) / 3.0
  {
  }

  /** For every number of falls there is a run with exactly as many lines as the bound allows: n files
      write 11 n lines in 3 (n - 1) seconds. For two files these are 22 lines, where one file that takes
      as long writes at most 12. */
  lemma BoundIsReached(n: nat)
    requires n > 0
    ensures var hooks := Ramps(5.0, n);
      && hooks != [] && Clocked(hooks, 100.0) && AllKnown(hooks)
      && Falls(FRESH.lastPct, hooks) == n - 1
      && Run(FRESH, hooks).1 == 11 * n
      && (Run(FRESH, hooks).1 - Free(hooks)) as real
        == 11.0 + 10.0 * Falls(FRESH.lastPct, hooks) as real + Span(hooks) / 3.0
  {
    RampsShape(5.0, n);
    RampsRun(FRESH, FRESH.lastPct, 5.0, n);
    hide Run;
    hide Falls;
    hide Ramps;
    hide Clocked;
    var hooks := Ramps(5.0, n);
    RampedReports(hooks, 5.0, LastFile(5.0, n));
    NothingFree(hooks);
    SameBound(n);
  }

  /** One report without a percentage, and then all of them. */
  function LateRamp(): seq<Hook> {
    [Hook(5.0, true, Unknown)] + Ramp(0, 5.0)
  }

  lemma LateRampShape()
    ensures Clocked(LateRamp(), 100.0) && Steady(0.0, LateRamp()) && Span(LateRamp()) == 0.0
  {
    RampShape(0, 5.0);
    var hooks := LateRamp();
    assert forall i :: 0 < i < |hooks| ==> hooks[i] == Ramp(0, 5.0)[i - 1];
  }

  lemma FirstUnknown(rest: seq<Hook>)
    requires Run(Throttle(5.0, FRESH.lastPct), rest).1 == 11
    ensures Run(FRESH, [Hook(5.0, true, Unknown)] + rest).1 == 12
  {
    RunCons(FRESH, Hook(5.0, true, Unknown), rest);
    hide Run;
  }

  /** In one instant they write 12 lines, more than when every percentage is known. */
  lemma UnknownBoundIsReached()
    ensures Clocked(LateRamp(), 100.0) && Steady(0.0, LateRamp()) && Span(LateRamp()) == 0.0
    ensures Run(FRESH, LateRamp()).1 == 12
  {
    LateRampShape();
    assert LateRamp() == [Hook(5.0, true, Unknown)] + Ramp(0, 5.0);
    hide *;
    RampRun(Throttle(5.0, FRESH.lastPct), FRESH.lastPct, 0, 5.0);
    FirstUnknown(Ramp(0, 5.0));
  }

  // ---- What the throttle lets through ----

  /** A report the throttle has no reason to hold back: two seconds after the last line when it has no
      percentage; three seconds after it, or ten percent above the last percentage written, when it has. */
  predicate Ripe(t: Throttle, h: Hook) {
    && h.downloading
    && match h.pct
       case Unknown => h.now >= t.lastInfo + 2.0
       case Known(value) => h.now >= t.lastInfo + 3.0 || value >= t.lastPct + 10.0
  }

  /** Reports each of which is due after the one before. */
  predicate Spaced(t: Throttle, hooks: seq<Hook>)
    decreases |hooks|
  {
    hooks == []
    || (Ripe(t, hooks[0])
        && Spaced(Throttle(hooks[0].now, if hooks[0].pct.Known? then hooks[0].pct.value else t.lastPct), hooks[1..]))
  }

  /** Every one of them is written. */
  lemma {:induction false} SpacedReportsAreWritten(t: Throttle, hooks: seq<Hook>)
    requires Spaced(t, hooks)
    ensures Run(t, hooks).1 == |hooks|
    decreases |hooks|
  {
    if hooks != [] {
      SpacedReportsAreWritten(After(t, hooks[0]), hooks[1..]);
    }
  }

  /** Unknown percentages, reported every two seconds from second two on. */
  function Ticks(from: nat, n: nat): seq<Hook>
    decreases n
  {
    if n == 0 then [] else [Hook(2.0 * from as real, true, Unknown)] + Ticks(from + 1, n - 1)
  }

  /** A run of unknown percentages that writes one line every two seconds. */
  lemma {:induction false} TicksAreWritten(t: Throttle, from: nat, n: nat)
    requires t.lastInfo + 2.0 <= 2.0 * from as real
    ensures Run(t, Ticks(from, n)).1 == n
    decreases n
  {
    if n > 0 {
      var h := Hook(2.0 * from as real, true, Unknown);
      RunCons(t, h, Ticks(from + 1, n - 1));
      TicksAreWritten(After(t, h), from + 1, n - 1);
    }
  }

  /** Nothing else about a running download is written. */
  lemma RestIsHeldBack(t: Throttle, h: Hook)
    requires h.downloading && !Ripe(t, h)
    ensures Run(t, [h]) == (t, 0)
  {
    assert [h][1..] == [];
  }

  /** The first known percentage is always written, whenever it comes; an unknown one only from second two
      on; and a status other than downloading always, after which the next unknown one has to wait. */
  lemma FirstReports(h: Hook, next: Hook)
    requires h.downloading && (h.pct.Known? ==> h.pct.value >= 0.0)
    requires next.downloading && next.pct.Unknown?
    ensures Run(FRESH, [h]).1 == if h.pct.Known? || h.now >= 2.0 then 1 else 0
    ensures Run(FRESH, [h.(downloading := false)] + [next]).1 == if next.now >= h.now + 2.0 then 2 else 1
  {
    var over := h.(downloading := false);
    assert [h][1..] == [];
    RunCons(FRESH, over, [next]);
    assert [next][1..] == [];
  }

  // ---- Percentages from byte counts ----

  /** The byte counts of a progress report, where it has them. */
  datatype Report = Report(total: Option<real>, estimate: Option<real>, downloaded: Option<real>)

  /** Python's `a or b` on optional numbers. */
  function Or(a: Option<real>, b: Option<real>): Option<real> {
    if a.Some? && a.value != 0.0 then a else b
  }

  /** _pct_from_progress_dict, where `rounded` rounds to two decimals. */
  function PctOf(r: Report, rounded: real -> real): Pct {
    var total := Or(r.total, r.estimate);
    if total.Some? && r.downloaded.Some? && total.value > 0.0 then
      Known(rounded(100.0 * r.downloaded.value / total.value))
    else Unknown
  }

  /** The percentage is that of the total, or of the estimate when there is no total or it is zero; half the
      bytes are fifty percent; without a byte count, or with neither total, it is unknown. */
  lemma PercentageOf(total: real, estimate: Option<real>, downloaded: real, rounded: real -> real)
    requires total > 0.0
    ensures PctOf(Report(Some(total), estimate, Some(downloaded)), rounded)
      == Known(rounded(downloaded / total * 100.0))
    ensures PctOf(Report(None, Some(total), Some(downloaded)), rounded)
      == PctOf(Report(Some(0.0), Some(total), Some(downloaded)), rounded)
      == PctOf(Report(Some(total), None, Some(downloaded)), rounded)
    ensures PctOf(Report(Some(total), estimate, Some(total / 2.0)), rounded) == Known(rounded(50.0))
    ensures PctOf(Report(Some(total), estimate, None), rounded) == Unknown
    ensures PctOf(Report(None, None, Some(downloaded)), rounded) == Unknown
  {
    assert 100.0 * downloaded / total == downloaded / total * 100.0;
    assert 100.0 * (total / 2.0) / total == 50.0;
  }

  /** What the bound needs to know about rounding to two decimals. */
  ghost predicate Rounds(rounded: real -> real) {
    && (forall a, b :: a <= b ==> rounded(a) <= rounded(b))
    && rounded(0.0) == 0.0 && rounded(100.0) == 100.0
  }

  /** A file of `total` bytes: when its hook is called with which counts, and when it is reported as
      finished, if it gets that far. */
  datatype File = File(times: seq<real>, counts: seq<real>, total: real, finished: Option<real>) {
    ghost predicate Valid() {
      && |times| == |counts| && total > 0.0
      && (forall i, j :: 0 <= i < j < |counts| ==> counts[i] <= counts[j])
      && (forall i :: 0 <= i < |counts| ==> 0.0 <= counts[i] <= total)
    }

    function PctAt(count: real, rounded: real -> real): Pct {
      PctOf(Report(Some(total), None, Some(count)), rounded)
    }

    function Progress(rounded: real -> real): (r: seq<Hook>)
      requires Valid()
    {
      seq(|times|, i requires 0 <= i < |times| => Hook(times[i], true, PctAt(counts[i], rounded)))
    }

    function Hooks(rounded: real -> real): (r: seq<Hook>)
      requires Valid()
    {
      match finished
      case None => Progress(rounded)
      case Some(time) => Progress(rounded) + [Hook(time, false, PctAt(total, rounded))]
    }
  }

  /** The hook calls of files fetched one after the other, as for a format that asks for video and audio
      separately. */
  function HooksOf(files: seq<File>, rounded: real -> real): seq<Hook>
    requires forall f :: f in files ==> f.Valid()
  {
    if files == [] then []
    else
      assert files[0] in files;
      files[0].Hooks(rounded) + HooksOf(files[1..], rounded)
  }

  lemma ShareGrows(a: real, b: real, total: real)
    requires 0.0 <= a <= b <= total && total > 0.0
    ensures 0.0 <= 100.0 * a / total <= 100.0 * b / total <= 100.0
  {
  }

  lemma FilePercentages(f: File, rounded: real -> real)
    requires f.Valid() && Rounds(rounded)
    ensures forall h :: h in f.Hooks(rounded) ==> h.pct.Known? && 0.0 <= h.pct.value <= 100.0
    ensures Steady(0.0, f.Hooks(rounded))
  {
    var hooks := f.Hooks(rounded);
    forall i | 0 <= i < |hooks|
      ensures hooks[i].pct.Known? && 0.0 <= hooks[i].pct.value <= 100.0
    {
      var count := if i < |f.counts| then f.counts[i] else f.total;
      ShareGrows(count, count, f.total);
    }
    forall i, j | 0 <= i < j < |f.counts|
      ensures hooks[i].pct.value <= hooks[j].pct.value
    {
      ShareGrows(f.counts[i], f.counts[j], f.total);
    }
  }

  /** One file falls at most once, at its first report. */
  lemma FileFalls(last: real, f: File, rounded: real -> real)
    requires f.Valid() && Rounds(rounded)
    ensures Falls(last, f.Hooks(rounded)) <= if last <= 0.0 then 0 else 1
  {
    var hooks := f.Hooks(rounded);
    FilePercentages(f, rounded);
    if last <= 0.0 {
      SteadyNeverFalls(last, hooks);
    } else if hooks != [] {
      SteadyNeverFalls(Reported(last, hooks[0]), hooks[1..]);
    }
  }

  lemma {:induction false} FreeConcat(a: seq<Hook>, b: seq<Hook>)
    ensures Free(a + b) == Free(a) + Free(b)
  {
    if a == [] {
      assert a + b == b;
    } else {
      assert (a + b)[1..] == a[1..] + b;
      FreeConcat(a[1..], b);
    }
  }

  lemma FileFree(f: File, rounded: real -> real)
    requires f.Valid()
    ensures Free(f.Hooks(rounded)) == if f.finished.Some? then 1 else 0
  {
    NothingFree(f.Progress(rounded));
    if f.finished.Some? {
      FreeConcat(f.Progress(rounded), [Hook(f.finished.value, false, f.PctAt(f.total, rounded))]);
    }
  }

  /** How many of the files finish. */
  function Finished(files: seq<File>): nat {
    if files == [] then 0 else Finished(files[1..]) + if files[0].finished.Some? then 1 else 0
  }

  lemma {:induction false} FilesShape(last: real, files: seq<File>, rounded: real -> real)
    requires Rounds(rounded) && forall f :: f in files ==> f.Valid()
    ensures var hooks := HooksOf(files, rounded);
      && (forall h :: h in hooks ==> h.pct.Known? && 0.0 <= h.pct.value <= 100.0)
      && Free(hooks) == Finished(files)
      && Falls(last, hooks) <= (if last <= 0.0 && files != [] then |files| - 1 else |files|)
    decreases |files|
  {
    if files != [] {
      assert files[0] in files;
      var a, b := files[0].Hooks(rounded), HooksOf(files[1..], rounded);
      FilePercentages(files[0], rounded);
      FileFalls(last, files[0], rounded);
      FileFree(files[0], rounded);
      FilesShape(LastReported(last, a), files[1..], rounded);
      FreeConcat(a, b);
      FallsConcat(last, a, b);
    }
  }

  /** Files fetched one after the other through one hook, each with a known total its byte count grows up
      to, write at most 11 lines for the first and ten for each further one, one for each that finishes,
      and one for every three seconds. */
  lemma FilesAreQuiet(files: seq<File>, rounded: real -> real)
    requires files != [] && (forall f :: f in files ==> f.Valid()) && Rounds(rounded)
    requires var hooks := HooksOf(files, rounded);
      hooks != [] && forall i, j :: 0 <= i < j < |hooks| ==> hooks[i].now <= hooks[j].now
    ensures var hooks := HooksOf(files, rounded);
      Run(FRESH, hooks).1 as real
        <= 11.0 + 10.0 * (|files| - 1) as real + Finished(files) as real + Span(hooks) / 3.0
  {
    FilesShape(FRESH.lastPct, files, rounded);
    FallsBound(HooksOf(files, rounded), 100.0);
  }

  /** One file. */
  lemma DownloadIsQuiet(f: File, rounded: real -> real)
    requires f.Valid() && Rounds(rounded)
    requires var hooks := f.Hooks(rounded);
      hooks != [] && forall i, j :: 0 <= i < j < |hooks| ==> hooks[i].now <= hooks[j].now
    ensures var hooks := f.Hooks(rounded);
      Run(FRESH, hooks).1 as real <= 11.0 + (if f.finished.Some? then 1.0 else 0.0) + Span(hooks) / 3.0
  {
    assert HooksOf([f], rounded) == f.Hooks(rounded) by {
      assert [f][1..] == [];
    }
    FilesAreQuiet([f], rounded);
  }

  class ProgressHook {
    const logFull: bool
    var lastInfo: real
    var lastInfoPct: real

    constructor (logFull: bool)
      ensures Throttle(lastInfo, lastInfoPct) == FRESH && this.logFull == logFull
    {
      this.logFull, lastInfo, lastInfoPct := logFull, 0.0, -100.0;
    }

    /** One hook call; true when it writes an INFO line. */
    method Call(h: Hook) returns (info: bool)
      modifies this
      ensures info == (logFull || Emits(old(Throttle(lastInfo, lastInfoPct)), h))
      ensures Throttle(lastInfo, lastInfoPct) ==
        if logFull then old(Throttle(lastInfo, lastInfoPct)) else After(old(Throttle(lastInfo, lastInfoPct)), h)
    {
      if logFull {
        return true;
      }
      info := false;
      if !h.downloading {
        info := true;
      } else if h.pct.Unknown? {
        info := h.now - lastInfo >= 2.0;
      } else if h.pct.value - lastInfoPct >= 10.0 || h.now - lastInfo >= 3.0 {
        info := true;
        lastInfoPct := h.pct.value;
      }
      if info {
        lastInfo := h.now;
      }
    }
  }
}
