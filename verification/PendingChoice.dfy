/** The short-lived store of inline-menu choices: one-shot tokens with a time to live. */
module PendingChoices {
  import opened Basics

  type Token = string

  datatype Choice = Choice(userId: int, url: string, replyTo: int)

  datatype Event =
    | Created(token: Token, choice: Choice, at: real)
    | Popped(token: Token)

  /** The creation a token still stands for when nothing ever expires: the latest one, unless someone
      popped the token since. */
  function Standing(history: seq<Event>, token: Token): (r: Option<Event>)
    ensures r.Some? ==> r.value.Created? && r.value.token == token
  {
    if history == [] then None
    else
      var last := history[|history| - 1];
      if last.token != token then Standing(history[..|history| - 1], token)
      else if last.Created? then Some(last)
      else None
  }

  /** Event `i` creates the token and no later event mentions it. */
  ghost predicate StandsAt(history: seq<Event>, token: Token, i: nat) {
    && i < |history| && history[i].Created? && history[i].token == token
    && forall k :: i < k < |history| ==> history[k].token != token
  }

  lemma {:induction false} StandingFound(history: seq<Event>, token: Token) returns (i: nat)
    requires Standing(history, token).Some?
    ensures StandsAt(history, token, i) && Standing(history, token) == Some(history[i])
  {
    var n := |history| - 1;
    if history[n].token == token {
      i := n;
    } else {
      i := StandingFound(history[..n], token);
      assert forall k :: i < k < n ==> history[k] == history[..n][k];
    }
  }

  lemma {:induction false} StandingOf(history: seq<Event>, token: Token, i: nat)
    requires StandsAt(history, token, i)
    ensures Standing(history, token) == Some(history[i])
    decreases |history|
  {
    if i < |history| - 1 {
      StandingOf(history[..|history| - 1], token, i);
    }
  }

  /** The same read off the history. */
  lemma {:induction false} StandingIs(history: seq<Event>, token: Token, e: Event)
    ensures Standing(history, token) == Some(e) <==> exists i: nat :: StandsAt(history, token, i) && history[i] == e
  {
    if Standing(history, token) == Some(e) {
      var i := StandingFound(history, token);
    }
    if i: nat :| StandsAt(history, token, i) && history[i] == e {
      StandingOf(history, token, i);
    }
  }

  /** What popping `token` should give `user` at `now`. */
  function Answer(history: seq<Event>, ttl: real, token: Token, user: int, now: real): Option<Choice> {
    match Standing(history, token)
    case None => None
    case Some(e) => if now <= e.at + ttl && e.choice.userId == user then Some(e.choice) else None
  }

  /** Event `i` created `c` under the token for `user`, nothing has happened to the token since, and the
      choice is at most the time to live old. */
  ghost predicate Due(history: seq<Event>, ttl: real, token: Token, user: int, now: real, i: nat, c: Choice) {
    StandsAt(history, token, i) && history[i].choice == c && now <= history[i].at + ttl && c.userId == user
  }

  /** The pop read off the events alone: it gives a choice exactly when that choice was created under the
      token, nothing has happened to the token since, it is at most the time to live old, and the one who
      asks is the one it was made for. */
  lemma AnswerIs(history: seq<Event>, ttl: real, token: Token, user: int, now: real, c: Choice)
    ensures Answer(history, ttl, token, user, now) == Some(c) <==>
      exists i: nat :: Due(history, ttl, token, user, now, i, c)
  {
    if Standing(history, token).Some? {
      var i := StandingFound(history, token);
      assert Answer(history, ttl, token, user, now) == Some(c) ==> Due(history, ttl, token, user, now, i, c);
    }
    if i: nat :| Due(history, ttl, token, user, now, i, c) {
      StandingOf(history, token, i);
    }
  }

  class PendingChoiceStore {
    const ttl: real
    var entries: map<Token, (real, Choice)>
    ghost var history: seq<Event>
    ghost var clock: real

    /** The store is the unpurged history without entries that have expired since. */
    ghost predicate Valid()
      reads this
    {
      && (forall t :: t in entries ==>
            && Standing(history, t).Some?
            && entries[t] == (Standing(history, t).value.at + ttl, Standing(history, t).value.choice))
      && (forall t :: Standing(history, t).Some? && t !in entries ==> Standing(history, t).value.at + ttl < clock)
      && (ttl >= 0.0 ==> forall t :: t in entries ==> clock <= entries[t].0)
    }

    constructor (ttl: real, now: real)
      ensures Valid() && this.ttl == ttl && history == [] && clock == now
    {
      this.ttl, entries, history, clock := ttl, map[], [], now;
    }

    method Purge(now: real)
      modifies this`entries
      ensures entries == map t | t in old(entries) && old(entries)[t].0 >= now :: old(entries)[t]
    {
      var dead := set t | t in entries && entries[t].0 < now;
      while dead != {}
        invariant forall t :: t in dead <==> t in entries && entries[t].0 < now
        invariant forall t :: t in entries ==> t in old(entries) && entries[t] == old(entries)[t]
        invariant forall t :: t in old(entries) && old(entries)[t].0 >= now ==> t in entries
        decreases |dead|
      {
        var t :| t in dead;
        entries := entries - {t};
        dead := dead - {t};
      }
    }

    /** `token` is the new uuid. With a negative time to live the entry has expired when it is stored, and
        stays until the next call purges it. */
    method Create(token: Token, choice: Choice, now: real)
      requires Valid() && clock <= now
      modifies this
      ensures Valid() && clock == now
      ensures history == old(history) + [Created(token, choice, now)]
      ensures token in entries && entries[token].1 == choice && (ttl < 0.0 <==> entries[token].0 < now)
    {
      Purge(now);
      entries := entries[token := (now + ttl, choice)];
      history := history + [Created(token, choice, now)];
      clock := now;
      assert history[..|history| - 1] == old(history);
    }

    /** Purging is invisible: the answer is the one of the full history. */
    method Pop(token: Token, user: int, now: real) returns (r: Option<Choice>)
      requires Valid() && clock <= now
      modifies this
      ensures Valid() && clock == now
      ensures history == old(history) + [Popped(token)]
      ensures r == Answer(old(history), ttl, token, user, now)
      ensures forall c :: r == Some(c) <==>
        exists i: nat :: Due(old(history), ttl, token, user, now, i, c)
    {
      forall c
        ensures Answer(history, ttl, token, user, now) == Some(c) <==>
          exists i: nat :: Due(history, ttl, token, user, now, i, c)
      {
        AnswerIs(history, ttl, token, user, now, c);
      }
      Purge(now);
      var found := token in entries;
      var row := if found then entries[token] else (0.0, Choice(0, "", 0));
      entries := entries - {token};
      history := history + [Popped(token)];
      clock := now;
      assert history[..|history| - 1] == old(history);
      if !found {
        return None;
      }
      assert row.0 >= now;   // the expiry check below never fires
      if row.0 < now || row.1.userId != user {
        return None;
      }
      r := Some(row.1);
    }
  }

  /** One shot: once anyone popped a token, later pops give nothing until it is created again. */
  lemma {:induction false} PoppedIsGone(history: seq<Event>, more: seq<Event>, ttl: real, token: Token, user: int,
                                        now: real)
    requires forall i :: 0 <= i < |more| && more[i].Created? ==> more[i].token != token
    ensures Answer(history + [Popped(token)] + more, ttl, token, user, now) == None
    decreases |more|
  {
    var all := history + [Popped(token)] + more;
    if more == [] {
      assert all[|all| - 1] == Popped(token);
    } else {
      assert all[..|all| - 1] == history + [Popped(token)] + more[..|more| - 1];
      PoppedIsGone(history, more[..|more| - 1], ttl, token, user, now);
    }
  }

  /** A pop by someone else gives nothing, and uses the token up for its owner as well. */
  lemma StrangersEndIt(history: seq<Event>, more: seq<Event>, ttl: real, token: Token, i: nat, stranger: int, now: real,
                       user: int, later: real)
    requires StandsAt(history, token, i) && history[i].choice.userId != stranger
    requires forall k :: 0 <= k < |more| && more[k].Created? ==> more[k].token != token
    ensures Answer(history, ttl, token, stranger, now) == None
    ensures Answer(history + [Popped(token)] + more, ttl, token, user, later) == None
  {
    StandingOf(history, token, i);
    PoppedIsGone(history, more, ttl, token, user, later);
  }
}
