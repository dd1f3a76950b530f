/** The sliding-window limit per user, against the full log of admitted events. */
module RateLimit {

  datatype Admission = Admission(user: int, at: real)

  /** When this user's events were admitted. */
  function Times(log: seq<Admission>, user: int): seq<real> {
    if log == [] then []
    else
      var last := log[|log| - 1];
      var before := Times(log[..|log| - 1], user);
      if last.user == user then before + [last.at] else before
  }

  predicate Sorted(times: seq<real>) {
    forall i, j :: 0 <= i < j < |times| ==> times[i] <= times[j]
  }

  /** How many of the times lie in the closed interval from `lo` to `hi`. */
  function CountIn(times: seq<real>, lo: real, hi: real): nat {
    if times == [] then 0
    else CountIn(times[..|times| - 1], lo, hi) + if lo <= times[|times| - 1] <= hi then 1 else 0
  }

  /** The rule: fewer than `max` earlier admitted events of the user lie in the window up to now. */
  predicate Admits(log: seq<Admission>, user: int, now: real, window: real, max: nat) {
    CountIn(Times(log, user), now - window, now) < max
  }

  /** What the middleware keeps: the user's times without the ones before `lo` at the front. */
  function DropOld(times: seq<real>, lo: real): (r: seq<real>)
    ensures |r| <= |times|
  {
    if times != [] && times[0] < lo then DropOld(times[1..], lo) else times
  }

  /** The times from `lo` on. */
  function Recent(times: seq<real>, lo: real): seq<real> {
    if times == [] then []
    else if times[0] >= lo then [times[0]] + Recent(times[1..], lo)
    else Recent(times[1..], lo)
  }

  lemma {:induction false} RecentAll(times: seq<real>, lo: real)
    requires forall i :: 0 <= i < |times| ==> times[i] >= lo
    ensures Recent(times, lo) == times
  {
    if times != [] {
      RecentAll(times[1..], lo);
    }
  }

  /** On a sorted log, dropping from the front filters. */
  lemma {:induction false} DropOldIsRecent(times: seq<real>, lo: real)
    requires Sorted(times)
    ensures DropOld(times, lo) == Recent(times, lo)
  {
    if times != [] && times[0] < lo {
      DropOldIsRecent(times[1..], lo);
    } else {
      assert forall i :: 0 < i < |times| ==> times[0] <= times[i];
      RecentAll(times, lo);
    }
  }

  lemma {:induction false} CountSplit(a: seq<real>, b: seq<real>, lo: real, hi: real)
    ensures CountIn(a + b, lo, hi) == CountIn(a, lo, hi) + CountIn(b, lo, hi)
  {
    if b == [] {
      assert a + b == a;
    } else {
      assert (a + b)[..|a + b| - 1] == a + b[..|b| - 1];
      CountSplit(a, b[..|b| - 1], lo, hi);
    }
  }

  lemma {:induction false} CountAll(times: seq<real>, lo: real, hi: real)
    requires forall i :: 0 <= i < |times| ==> lo <= times[i] <= hi
    ensures CountIn(times, lo, hi) == |times|
  {
    if times != [] {
      CountAll(times[..|times| - 1], lo, hi);
    }
  }

  /** On a sorted log, what is left after dropping from the front is what lies in the window. */
  lemma {:induction false} DropOldCounts(times: seq<real>, lo: real, hi: real)
    requires Sorted(times)
    requires forall i :: 0 <= i < |times| ==> times[i] <= hi
    ensures |DropOld(times, lo)| == CountIn(times, lo, hi)
    decreases |times|
  {
    if times != [] && times[0] < lo {
      DropOldCounts(times[1..], lo, hi);
      assert times == [times[0]] + times[1..];
      CountSplit([times[0]], times[1..], lo, hi);
    } else {
      forall i | 0 <= i < |times|
        ensures lo <= times[i]
      {
        assert i > 0 ==> times[0] <= times[i];
      }
      CountAll(times, lo, hi);
    }
  }

  /** A newer interval that reaches back at least as far counts at least as many of the times that lie
      before its end. */
  lemma {:induction false} CountGrows(times: seq<real>, lo: real, hi: real, lo': real, hi': real)
    requires lo' <= lo
    requires forall i :: 0 <= i < |times| ==> times[i] <= hi'
    ensures CountIn(times, lo, hi) <= CountIn(times, lo', hi')
  {
    if times != [] {
      CountGrows(times[..|times| - 1], lo, hi, lo', hi');
    }
  }

  /** What was dropped at the front would be dropped later too. */
  lemma {:induction false} DropOldLater(times: seq<real>, more: seq<real>, lo: real, later: real)
    requires lo <= later
    ensures DropOld(DropOld(times, lo) + more, later) == DropOld(times + more, later)
    decreases |times|
  {
    if times != [] && times[0] < lo {
      assert (times + more)[1..] == times[1..] + more;
      DropOldLater(times[1..], more, lo, later);
    }
  }

  // ---- Runs ----

  datatype Request = Request(user: int, at: real)

  predicate Ordered(calls: seq<Request>) {
    forall i, j :: 0 <= i < j < |calls| ==> calls[i].at <= calls[j].at
  }

  /** The admitted events after these calls. */
  function LogOf(calls: seq<Request>, window: real, max: nat): seq<Admission> {
    if calls == [] then []
    else
      var log := LogOf(calls[..|calls| - 1], window, max);
      var c := calls[|calls| - 1];
      if Admits(log, c.user, c.at, window, max) then log + [Admission(c.user, c.at)] else log
  }

  lemma LogStep(calls: seq<Request>, user: int, now: real, window: real, max: nat)
    ensures var log := LogOf(calls, window, max);
      LogOf(calls + [Request(user, now)], window, max)
        == if Admits(log, user, now, window, max) then log + [Admission(user, now)] else log
  {
  }

  lemma TimesSnoc(log: seq<Admission>, a: Admission, user: int)
    ensures Times(log + [a], user) == if a.user == user then Times(log, user) + [a.at] else Times(log, user)
  {
  }

  lemma {:induction false} TimesBefore(calls: seq<Request>, window: real, max: nat, user: int, now: real)
    requires Ordered(calls) && forall i :: 0 <= i < |calls| ==> calls[i].at <= now
    ensures var t := Times(LogOf(calls, window, max), user);
      Sorted(t) && forall i :: 0 <= i < |t| ==> t[i] <= now
    decreases |calls|
  {
    if calls != [] {
      var n := |calls| - 1;
      TimesBefore(calls[..n], window, max, user, calls[n].at);
      TimesSnoc(LogOf(calls[..n], window, max), Admission(calls[n].user, calls[n].at), user);
    }
  }

  /** What the last call adds to a user's admitted times. */
  lemma TimesStep(calls: seq<Request>, window: real, max: nat, user: int)
    requires calls != []
    ensures var c := calls[|calls| - 1];
      var times := Times(LogOf(calls[..|calls| - 1], window, max), user);
      Times(LogOf(calls, window, max), user)
        == if c.user == user && CountIn(times, c.at - window, c.at) < max then times + [c.at] else times
  {
  }

  lemma WindowStep(times: seq<real>, now: real, window: real, max: nat, from: real)
    requires window >= 0.0 && forall i :: 0 <= i < |times| ==> times[i] <= now
    requires CountIn(times, now - window, now) < max && CountIn(times, from, from + window) <= max
    ensures CountIn(times + [now], from, from + window) <= max
  {
    assert (times + [now])[..|times|] == times;
    if from <= now <= from + window {
      CountGrows(times, from, from + window, now - window, now);
    }
  }

  /** With a clock that does not run backwards, any closed interval as long as the window contains at
      most `max` admitted events of one user. */
  lemma {:induction false} WindowBound(calls: seq<Request>, window: real, max: nat, user: int, from: real)
    requires Ordered(calls) && window >= 0.0
    ensures CountIn(Times(LogOf(calls, window, max), user), from, from + window) <= max
    decreases |calls|
  {
    if calls != [] {
      var n := |calls| - 1;
      var times := Times(LogOf(calls[..n], window, max), user);
      WindowBound(calls[..n], window, max, user, from);
      TimesStep(calls, window, max, user);
      TimesBefore(calls[..n], window, max, user, calls[n].at);
      if CountIn(times, calls[n].at - window, calls[n].at) < max {
        WindowStep(times, calls[n].at, window, max, from);
      }
    }
  }

  function Only(calls: seq<Request>, user: int): seq<Request> {
    if calls == [] then []
    else
      var c := calls[|calls| - 1];
      var before := Only(calls[..|calls| - 1], user);
      if c.user == user then before + [c] else before
  }

  /** Users do not affect each other: a user's admitted events are those of a run with that user's
      calls alone. */
  lemma {:induction false} UsersAreIndependent(calls: seq<Request>, window: real, max: nat, user: int)
    ensures Times(LogOf(calls, window, max), user) == Times(LogOf(Only(calls, user), window, max), user)
    decreases |calls|
  {
    if calls != [] {
      var n := |calls| - 1;
      var c := calls[n];
      UsersAreIndependent(calls[..n], window, max, user);
      var before, alone := LogOf(calls[..n], window, max), LogOf(Only(calls[..n], user), window, max);
      TimesSnoc(before, Admission(c.user, c.at), user);
      if c.user == user {
        assert (Only(calls[..n], user) + [c])[..|Only(calls[..n], user)|] == Only(calls[..n], user);
        TimesSnoc(alone, Admission(c.user, c.at), user);
      } else {
        assert Only(calls, user) == Only(calls[..n], user);
      }
    }
  }

  // ---- The middleware ----

  function Deque(hits: map<int, seq<real>>, user: int): seq<real> {
    if user in hits then hits[user] else []
  }

  /** A deque may lack old times of its user, but none that a window starting at `from` or later
      could still count. */
  ghost predicate Agrees(hits: map<int, seq<real>>, log: seq<Admission>, from: real) {
    forall u, lo :: lo >= from ==> DropOld(Deque(hits, u), lo) == DropOld(Times(log, u), lo)
  }

  lemma AgreesOn(hits: map<int, seq<real>>, log: seq<Admission>, from: real, user: int, now: real, lo: real,
                 passes: bool)
    requires Agrees(hits, log, from) && from <= lo
    ensures var kept := DropOld(Deque(hits, user), lo);
      && kept == DropOld(Times(log, user), lo)
      && Agrees(hits[user := if passes then kept + [now] else kept],
                if passes then log + [Admission(user, now)] else log, lo)
  {
    var kept, times := DropOld(Deque(hits, user), lo), Times(log, user);
    var log' := if passes then log + [Admission(user, now)] else log;
    var hits' := hits[user := if passes then kept + [now] else kept];
    forall u, later | later >= lo
      ensures DropOld(Deque(hits', u), later) == DropOld(Times(log', u), later)
    {
      TimesSnoc(log, Admission(user, now), u);
      DropOldLater(times, [now], lo, later);
      DropOldLater(times, [], lo, later);
      assert kept + [] == kept && times + [] == times;
    }
  }

  ghost predicate Consistent(hits: map<int, seq<real>>, calls: seq<Request>, clock: real, window: real, max: nat) {
    && Ordered(calls)
    && (forall i :: 0 <= i < |calls| ==> calls[i].at <= clock)
    && Agrees(hits, LogOf(calls, window, max), clock - window)
  }

  lemma KeptIsRecent(calls: seq<Request>, window: real, max: nat, user: int, now: real)
    requires Ordered(calls) && forall i :: 0 <= i < |calls| ==> calls[i].at <= now
    ensures var times := Times(LogOf(calls, window, max), user);
      DropOld(times, now - window) == Recent(times, now - window)
  {
    TimesBefore(calls, window, max, user, now);
    DropOldIsRecent(Times(LogOf(calls, window, max), user), now - window);
  }

  /** One call, on values: what the middleware's loop leaves decides the call. */
  lemma CallEffect(hits: map<int, seq<real>>, calls: seq<Request>, clock: real, window: real, max: nat, user: int,
                   now: real)
    requires Consistent(hits, calls, clock, window, max) && clock <= now
    ensures var kept := DropOld(Deque(hits, user), now - window);
      var log := LogOf(calls, window, max);
      && kept == Recent(Times(log, user), now - window)
      && ((|kept| < max) == Admits(log, user, now, window, max))
      && Consistent(hits[user := if |kept| < max then kept + [now] else kept],
                    calls + [Request(user, now)], now, window, max)
  {
    CallAgrees(hits, calls, clock, window, max, user, now);
    KeptIsRecent(calls, window, max, user, now);
    OrderedSnoc(calls, user, clock, now);
  }

  lemma OrderedSnoc(calls: seq<Request>, user: int, clock: real, now: real)
    requires Ordered(calls) && (forall i :: 0 <= i < |calls| ==> calls[i].at <= clock) && clock <= now
    ensures var calls' := calls + [Request(user, now)];
      Ordered(calls') && forall i :: 0 <= i < |calls'| ==> calls'[i].at <= now
  {
  }

  lemma CallAgrees(hits: map<int, seq<real>>, calls: seq<Request>, clock: real, window: real, max: nat, user: int,
                   now: real)
    requires Consistent(hits, calls, clock, window, max) && clock <= now
    ensures var kept := DropOld(Deque(hits, user), now - window);
      var log := LogOf(calls, window, max);
      && kept == DropOld(Times(log, user), now - window)
      && ((|kept| < max) == Admits(log, user, now, window, max))
      && Agrees(hits[user := if |kept| < max then kept + [now] else kept],
                LogOf(calls + [Request(user, now)], window, max), now - window)
  {
    var log := LogOf(calls, window, max);
    var passes := |DropOld(Deque(hits, user), now - window)| < max;
    TimesBefore(calls, window, max, user, now);
    DropOldCounts(Times(log, user), now - window, now);
    AgreesOn(hits, log, clock - window, user, now, now - window, passes);
    LogStep(calls, user, now, window, max);
  }

  class Middleware {
    const max: nat
    const window: real
    var hits: map<int, seq<real>>
    ghost var calls: seq<Request>           // every counted call, in order
    ghost var clock: real                   // when the latest of them came

    ghost function Log(): seq<Admission>
      reads this
    {
      LogOf(calls, window, max)
    }

    ghost predicate Valid()
      reads this
    {
      Consistent(hits, calls, clock, window, max)
    }

    constructor (maxEvents: int, window: real, now: real)
      ensures Valid() && calls == [] && this.window == window && clock == now
      ensures max == if maxEvents >= 1 then maxEvents else 1
    {
      max := if maxEvents >= 1 then maxEvents else 1;
      this.window := window;
      hits, calls, clock := map[], [], now;
    }

    /** The loop that pops expired times off the front of a deque. */
    method PopExpired(times: seq<real>, now: real) returns (rest: seq<real>)
      ensures rest == DropOld(times, now - window)
    {
      rest := times;
      while rest != [] && now - rest[0] > window
        invariant DropOld(times, now - window) == DropOld(rest, now - window)
        decreases |rest|
      {
        rest := rest[1..];
      }
    }

    /** One event of a human user. It passes exactly when fewer than `max` earlier admitted events of
        the user lie in the closed window that ends now. The deque is left with the admitted times of
        that window, and no other user's deque changes. */
    method Call(user: int, now: real) returns (passes: bool)
      requires Valid() && now >= clock
      modifies this
      ensures Valid() && clock == now
      ensures passes == Admits(old(Log()), user, now, window, max)
      ensures calls == old(calls) + [Request(user, now)]
      ensures var kept := Recent(Times(old(Log()), user), now - window);
        hits == old(hits)[user := if passes then kept + [now] else kept]
    {
      CallEffect(hits, calls, clock, window, max, user, now);
      var dq := PopExpired(if user in hits then hits[user] else [], now);
      passes := |dq| < max;
      if passes {
        dq := dq + [now];
      }
      hits, calls, clock := hits[user := dq], calls + [Request(user, now)], now;
    }
  }

  // ---- Nothing is refused too early ----

  /** An event is refused only when the window that ends with it is full. */
  lemma RefusedOnlyWhenFull(calls: seq<Request>, user: int, now: real, window: real, max: nat)
    requires Ordered(calls) && window >= 0.0 && forall i :: 0 <= i < |calls| ==> calls[i].at <= now
    requires LogOf(calls + [Request(user, now)], window, max) == LogOf(calls, window, max)
    ensures CountIn(Times(LogOf(calls, window, max), user), now - window, now) == max
  {
    var log := LogOf(calls, window, max);
    LogStep(calls, user, now, window, max);
    assert Admits(log, user, now, window, max) ==> |log + [Admission(user, now)]| == |log| + 1;
    WindowBound(calls, window, max, user, now - window);
  }

  lemma OneTime(user: int, at: real, lo: real, hi: real)
    ensures CountIn(Times([Admission(user, at)], user), lo, hi) == if lo <= at <= hi then 1 else 0
  {
    var log := [Admission(user, at)];
    assert log[..0] == [] && Times(log, user) == [] + [at];
    assert ([] + [at])[..0] == [];
  }

  lemma FirstPasses(user: int, at: real, window: real, max: nat)
    requires max > 0
    ensures LogOf([Request(user, at)], window, max) == [Admission(user, at)]
  {
    LogStep([], user, at, window, max);
    assert [] + [Request(user, at)] == [Request(user, at)];
    assert [] + [Admission(user, at)] == [Admission(user, at)];
  }

  /** The window is closed: with a maximum of one, an event at most one window after an admitted one is
      refused, and any later one passes. */
  lemma WindowIsClosed(user: int, at: real, now: real, window: real)
    requires window >= 0.0 && at <= now
    ensures LogOf([Request(user, at), Request(user, now)], window, 1)
      == if now - at <= window then [Admission(user, at)] else [Admission(user, at), Admission(user, now)]
  {
    FirstPasses(user, at, window, 1);
    OneTime(user, at, now - window, now);
    LogStep([Request(user, at)], user, now, window, 1);
    hide LogOf;
    hide Times;
    hide CountIn;
    assert [Request(user, at)] + [Request(user, now)] == [Request(user, at), Request(user, now)];
    assert [Admission(user, at)] + [Admission(user, now)] == [Admission(user, at), Admission(user, now)];
  }
}
