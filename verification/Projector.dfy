/** The read side: a summary folded from one page of the stream after another. */
module Projector {
  import opened Basics
  import opened AccountEvents
  import opened AccountModel
  import opened EventSourcing
  import opened Decimal

  datatype Summary = Summary(accountId: string, ownerId: string, balance: int, version: nat)

  /** One entry folded in; one that does not decode, or whose amount is no number, changes nothing. */
  function SummaryNext(s: Summary, raw: Fields): Result<Summary> {
    var e := DecodeEvent(raw);
    if e.Err? then Err(e.error)
    else
      match e.value
      case AccountCreated(id, owner) => Ok(s.(accountId := id, ownerId := owner, version := s.version + 1))
      case MoneyDeposited(_, text) =>
        if FromText(text).None? then Err(BadAmount(text))
        else Ok(s.(balance := s.balance + FromText(text).value, version := s.version + 1))
      case MoneyWithdrawn(_, text) =>
        if FromText(text).None? then Err(BadAmount(text))
        else Ok(s.(balance := s.balance - FromText(text).value, version := s.version + 1))
  }

  /** The fold of a whole log. */
  function Summarise(accountId: string, log: seq<Fields>): Result<Summary> {
    if log == [] then Ok(Summary(accountId, "", 0, 0))
    else
      var before := Summarise(accountId, log[..|log| - 1]);
      if before.Err? then before else SummaryNext(before.value, log[|log| - 1])
  }

  lemma {:induction false} VersionIsLength(accountId: string, log: seq<Fields>)
    requires Summarise(accountId, log).Ok?
    ensures Summarise(accountId, log).value.version == |log|
  {
    if log == [] {
    } else {
      VersionIsLength(accountId, log[..|log| - 1]);
    }
  }

  ghost predicate SameSummary(s: Summary, a: Account) {
    s == Summary(a.accountId, a.ownerId, a.balance, a.version)
  }

  lemma NextAgrees(s: Summary, a: Account, e: Event)
    requires SameSummary(s, a) && Apply(a, e).Ok?
    ensures var r := SummaryNext(s, Entry(TypeOf(e), ToDict(e))); r.Ok? && SameSummary(r.value, Apply(a, e).value)
  {
    EventRoundTrip(e);
    hide DecodeEvent, Entry, ToDict, FromText;
  }

  /** The read side agrees with the account over everything the account has produced. */
  lemma {:induction false} SummaryEqualsAccount(accountId: string, commands: seq<Command>)
    ensures var s := PerformAll(accountId, commands); var r := Summarise(accountId, Log(s.events));
            r.Ok? && SameSummary(r.value, s.account)
  {
    if commands == [] {
    } else {
      var n := |commands| - 1;
      var s, c := PerformAll(accountId, commands[..n]), commands[n];
      SummaryEqualsAccount(accountId, commands[..n]);
      var r := Decide(s.account, c);
      if r.Ok? {
        DecidedIsApplied(s.account, c);
        LogNext(s.events, r.value);
        NextAgrees(Summarise(accountId, Log(s.events)).value, s.account, r.value);
        var log := Log(s.events + [r.value]);
        assert log[..|log| - 1] == Log(s.events);
      }
      hide Decide, Apply, SummaryNext, Log;
    }
  }

  /** A read side that lags behind shows the account as it was after some earlier command. */
  lemma LaggingSummaryWasTrue(accountId: string, commands: seq<Command>, cursor: nat)
    requires cursor <= |PerformAll(accountId, commands).events|
    ensures exists m: nat ::
              && m <= |commands|
              && Summarise(accountId, Log(PerformAll(accountId, commands).events)[..cursor]).Ok?
              && SameSummary(Summarise(accountId, Log(PerformAll(accountId, commands).events)[..cursor]).value,
                             PerformAll(accountId, commands[..m]).account)
  {
    var events := PerformAll(accountId, commands).events;
    EventsGrow(accountId, commands, cursor);
    var m: nat :| m <= |commands| && PerformAll(accountId, commands[..m]).events == events[..cursor];
    assert Log(events)[..cursor] == Log(events[..cursor]);
    SummaryEqualsAccount(accountId, commands[..m]);
    hide PerformAll, Summarise, Log, SameSummary;
  }

  /** Polls needed to reach `expected` events, never less than one. */
  function Needed(expected: int): nat {
    if expected <= PAGE then 1 else (expected + PAGE - 1) / PAGE
  }

  class AccountSummary {
    var accountId: string
    var ownerId: string
    var balance: int
    var version: nat

    function Value(): Summary
      reads this
    {
      Summary(accountId, ownerId, balance, version)
    }

    constructor (accountId: string)
      ensures Value() == Summary(accountId, "", 0, 0)
    {
      this.accountId, ownerId, balance, version := accountId, "", 0, 0;
    }

    method ApplyRaw(raw: Fields) returns (r: Result<Summary>)
      modifies this
      ensures r == SummaryNext(old(Value()), raw)
      ensures Value() == if r.Ok? then r.value else old(Value())
    {
      var e := DecodeEvent(raw);
      if e.Err? {
        return Err(e.error);
      }
      match e.value {
        case AccountCreated(id, owner) =>
          accountId, ownerId := id, owner;
        case MoneyDeposited(_, text) =>
          var n := FromText(text);
          if n.None? {
            return Err(BadAmount(text));
          }
          balance := balance + n.value;
        case MoneyWithdrawn(_, text) =>
          var n := FromText(text);
          if n.None? {
            return Err(BadAmount(text));
          }
          balance := balance - n.value;
      }
      version := version + 1;
      return Ok(Value());
    }
  }

  /** The page is folded in entry by entry; the first one that fails ends the projection. */
  method FoldPage(summary: AccountSummary, accountId: string, ghost log: seq<Fields>, from: nat, page: seq<Fields>)
    returns (cursor: nat, error: Option<Error>)
    requires from <= |log| && page <= log[from..]
    requires Summarise(accountId, log[..from]) == Ok(summary.Value())
    modifies summary
    ensures from <= cursor <= from + |page|
    ensures Summarise(accountId, log[..cursor]) == Ok(summary.Value())
    ensures if error.None? then cursor == from + |page|
            else cursor < |log| && SummaryNext(summary.Value(), log[cursor]) == Err(error.value)
  {
    cursor := from;
    hide SummaryNext;
    for i := 0 to |page|
      invariant cursor == from + i
      invariant Summarise(accountId, log[..cursor]) == Ok(summary.Value())
    {
      assert page[i] == log[from..][i] == log[cursor];
      assert log[..cursor + 1][..cursor] == log[..cursor];
      var r := summary.ApplyRaw(page[i]);
      if r.Err? {
        return cursor, Some(r.error);
      }
      cursor := cursor + 1;
    }
    error := None;
  }

  /** The summary is the fold of the log up to the cursor. */
  ghost predicate Sees(log: seq<Fields>, s: Summary, accountId: string, cursor: nat) {
    cursor <= |log| && Summarise(accountId, log[..cursor]) == Ok(s) && s.version == cursor
  }

  lemma SeesMore(log: seq<Fields>, log': seq<Fields>, s: Summary, accountId: string, cursor: nat)
    requires Sees(log, s, accountId, cursor) && log <= log'
    ensures Sees(log', s, accountId, cursor)
  {
    assert log'[..cursor] == log[..cursor];
    hide Summarise;
  }

  lemma SeesIs(log: seq<Fields>, s: Summary, accountId: string, cursor: nat)
    requires Sees(log, s, accountId, cursor)
    ensures cursor <= |log| && Summarise(accountId, log[..cursor]) == Ok(s) && s.version == cursor
  {
  }

  /** One poll: the next page is read and folded in. */
  method Poll(store: EventStore, summary: AccountSummary, accountId: string, from: nat)
    returns (cursor: nat, error: Option<Error>)
    requires Sees(store.Stream(accountId), summary.Value(), accountId, from)
    modifies summary
    ensures from <= cursor <= from + PAGE && summary.version == cursor
    ensures Sees(store.Stream(accountId), summary.Value(), accountId, cursor)
    ensures if error.None? then cursor == from + PageSize(|store.Stream(accountId)| - from)
            else Fails(summary.Value(), store.Stream(accountId), cursor, error.value)
  {
    ghost var log := store.Stream(accountId);
    var page := store.Read(accountId, from);
    hide Summarise, SummaryNext;
    cursor, error := FoldPage(summary, accountId, log, from, page);
    VersionIsLength(accountId, log[..cursor]);
  }

  /** The entry at `cursor` is the one that cannot be folded in. */
  ghost predicate Fails(s: Summary, log: seq<Fields>, cursor: nat, error: Error) {
    cursor < |log| && SummaryNext(s, log[cursor]) == Err(error)
  }

  /** How far `polls` polls have come on a stream that began with `held` entries. */
  ghost predicate Reached(cursor: nat, polls: nat, held: nat) {
    Min(PAGE * polls, held) <= cursor <= PAGE * polls
  }

  lemma ReachesFurther(cursor: nat, cursor': nat, polls: nat, held: nat, length: nat)
    requires Reached(cursor, polls, held) && held <= length && cursor <= length
    requires cursor' == cursor + PageSize(length - cursor)
    ensures Reached(cursor', polls + 1, held)
  {
  }

  lemma PollsNeeded(cursor: nat, polls: nat, held: nat, expected: int)
    requires Reached(cursor, polls, held) && held >= expected && polls > 0
    ensures cursor < expected ==> polls < Needed(expected)
    ensures cursor >= expected ==> polls >= Needed(expected)
  {
  }

  /** What others append after the polls before the n-th. */
  ghost function Appended(arrivals: nat -> seq<Fields>, n: nat): seq<Fields> {
    if n <= 1 then [] else Appended(arrivals, n - 1) + arrivals(n - 1)
  }

  lemma AppendedNext(arrivals: nat -> seq<Fields>, n: nat)
    ensures Appended(arrivals, 0) == [] && Appended(arrivals, 1) == []
    ensures n >= 1 ==> Appended(arrivals, n + 1) == Appended(arrivals, n) + arrivals(n)
  {
  }

  /** What was appended during `polls` polls; nothing after the last one when the projector ended itself. */
  ghost predicate Holds(start: seq<Fields>, log: seq<Fields>, arrivals: nat -> seq<Fields>, polls: nat, ended: bool) {
    log == start + Appended(arrivals, if ended then polls else polls + 1)
  }

  lemma HoldsLess(start: seq<Fields>, log: seq<Fields>, arrivals: nat -> seq<Fields>, polls: nat)
    ensures Holds(start, start, arrivals, 0, true) && Holds(start, start, arrivals, 0, false)
    ensures Holds(start, log, arrivals, polls, false) ==> Holds(start, log, arrivals, polls + 1, true)
  {
    AppendedNext(arrivals, 0);
  }

  lemma HoldsMore(start: seq<Fields>, log: seq<Fields>, arrivals: nat -> seq<Fields>, polls: nat)
    requires Holds(start, log, arrivals, polls, true) && polls >= 1
    ensures Holds(start, log + arrivals(polls), arrivals, polls, false)
  {
    GrowsBy(start, arrivals, polls);
  }

  lemma GrowsBy(start: seq<Fields>, arrivals: nat -> seq<Fields>, n: nat)
    requires n >= 1
    ensures start + Appended(arrivals, n) + arrivals(n) == start + Appended(arrivals, n + 1)
  {
  }

  /**
   Whatever is appended between polls, the summary is the fold of exactly the stream up to the
   cursor. On a stream that already holds the expected events the number of polls is fixed.
   */
  method Project(store: EventStore, accountId: string, stopAfter: nat, expected: int, arrivals: nat -> seq<Fields>)
    returns (summary: AccountSummary, error: Option<Error>, polls: nat, cursor: nat)
    modifies store
    ensures fresh(summary)
    ensures Holds(old(store.Stream(accountId)), store.Stream(accountId), arrivals, polls,
                  error.Some? || summary.version >= expected)
    ensures Sees(store.Stream(accountId), summary.Value(), accountId, cursor) && cursor <= 100 * polls
    ensures error.Some? ==> Fails(summary.Value(), store.Stream(accountId), cursor, error.value)
    ensures polls <= stopAfter && (polls < stopAfter ==> polls > 0 && (error.Some? || summary.version >= expected))
    ensures error.None? && |old(store.Stream(accountId))| >= expected ==> polls == Min(stopAfter, Needed(expected))
  {
    summary := new AccountSummary(accountId);
    polls, cursor, error := 0, 0, None;
    ghost var start := store.Stream(accountId);
    UnderwayAtFirst(start, summary.Value(), accountId, expected, arrivals);
    hide *;
    while polls < stopAfter
      invariant fresh(summary) && error.None? && polls <= stopAfter
      invariant Underway(start, store.Stream(accountId), summary.Value(), accountId, cursor, polls, expected, arrivals)
    {
      cursor, error := PollInTime(store, summary, accountId, cursor, polls, expected, start, arrivals);
      polls := polls + 1;
      if error.Some? || summary.version >= expected {
        return;
      }
      OthersAppend(store, summary, accountId, cursor, arrivals, polls, expected, start);
    }
    Ends(start, store.Stream(accountId), summary.Value(), accountId, cursor, polls, expected, arrivals);
  }

  /** Everything read so far is folded in, everything appended is there, and it has not been enough. */
  ghost predicate Underway(start: seq<Fields>, log: seq<Fields>, s: Summary, accountId: string, cursor: nat, polls: nat,
                           expected: int, arrivals: nat -> seq<Fields>) {
    && |start| <= |log| && Holds(start, log, arrivals, polls, false) && Sees(log, s, accountId, cursor)
    && OnTime(cursor, polls, |start|, expected)
  }

  lemma UnderwayAtFirst(start: seq<Fields>, s: Summary, accountId: string, expected: int,
                        arrivals: nat -> seq<Fields>)
    requires s == Summary(accountId, "", 0, 0)
    ensures Underway(start, start, s, accountId, 0, 0, expected, arrivals)
  {
    HoldsLess(start, start, arrivals, 0);
    NotYet(|start|, expected);
    assert start[..0] == [];
    hide Holds, OnTime;
  }

  lemma Ends(start: seq<Fields>, log: seq<Fields>, s: Summary, accountId: string, cursor: nat, polls: nat,
             expected: int, arrivals: nat -> seq<Fields>)
    requires Underway(start, log, s, accountId, cursor, polls, expected, arrivals)
    ensures Holds(start, log, arrivals, polls, s.version >= expected)
    ensures Sees(log, s, accountId, cursor) && cursor <= 100 * polls
    ensures |start| >= expected ==> polls == Min(polls, Needed(expected))
  {
    OnTimeIs(cursor, polls, |start|, expected);
    SeesIs(log, s, accountId, cursor);
    HoldsNothing(start, log, arrivals);
    hide Holds, OnTime, Sees, Needed;
  }

  lemma HoldsNothing(start: seq<Fields>, log: seq<Fields>, arrivals: nat -> seq<Fields>)
    ensures Holds(start, log, arrivals, 0, false) <==> Holds(start, log, arrivals, 0, true)
  {
    AppendedNext(arrivals, 0);
  }

  /** The next poll, `polls` of them having not been enough. */
  method PollInTime(store: EventStore, summary: AccountSummary, accountId: string, from: nat, ghost polls: nat,
                    ghost expected: int, ghost start: seq<Fields>, ghost arrivals: nat -> seq<Fields>)
    returns (cursor: nat, error: Option<Error>)
    requires Underway(start, store.Stream(accountId), summary.Value(), accountId, from, polls, expected, arrivals)
    modifies summary
    ensures Sees(store.Stream(accountId), summary.Value(), accountId, cursor) && summary.version == cursor
    ensures Holds(start, store.Stream(accountId), arrivals, polls + 1, true) && cursor <= 100 * (polls + 1)
    ensures error.Some? ==> Fails(summary.Value(), store.Stream(accountId), cursor, error.value)
    ensures error.None? && cursor < expected ==> OnTime(cursor, polls + 1, |start|, expected)
    ensures |start| <= |store.Stream(accountId)|
    ensures error.None? && cursor >= expected && |start| >= expected ==> polls + 1 == Needed(expected)
  {
    ghost var log := store.Stream(accountId);
    UnderwayIs(start, log, summary.Value(), accountId, from, polls, expected, arrivals);
    SeesIs(log, summary.Value(), accountId, from);
    HoldsLess(start, log, arrivals, polls);
    OnTimeIs(from, polls, |start|, expected);
    hide *;
    cursor, error := Poll(store, summary, accountId, from);
    if error.None? {
      NextOnTime(from, cursor, polls, |start|, |log|, expected);
    }
  }

  /** What others append between two polls. */
  method OthersAppend(store: EventStore, summary: AccountSummary, accountId: string, ghost cursor: nat,
                      arrivals: nat -> seq<Fields>, polls: nat, ghost expected: int, ghost start: seq<Fields>)
    requires Sees(store.Stream(accountId), summary.Value(), accountId, cursor) && polls >= 1
    requires Holds(start, store.Stream(accountId), arrivals, polls, true) && |start| <= |store.Stream(accountId)|
    requires OnTime(cursor, polls, |start|, expected)
    modifies store
    ensures Underway(start, store.Stream(accountId), summary.Value(), accountId, cursor, polls, expected, arrivals)
  {
    ghost var log := store.Stream(accountId);
    hide *;
    store.AppendRaw(accountId, arrivals(polls));
    HoldsMore(start, log, arrivals, polls);
    SeesMore(log, store.Stream(accountId), summary.Value(), accountId, cursor);
    Resumes(start, store.Stream(accountId), summary.Value(), accountId, cursor, polls, expected, arrivals);
  }

  lemma Resumes(start: seq<Fields>, log: seq<Fields>, s: Summary, accountId: string, cursor: nat, polls: nat,
                expected: int, arrivals: nat -> seq<Fields>)
    requires |start| <= |log| && Holds(start, log, arrivals, polls, false) && Sees(log, s, accountId, cursor)
    requires OnTime(cursor, polls, |start|, expected)
    ensures Underway(start, log, s, accountId, cursor, polls, expected, arrivals)
  {
  }

  lemma UnderwayIs(start: seq<Fields>, log: seq<Fields>, s: Summary, accountId: string, cursor: nat, polls: nat,
                   expected: int, arrivals: nat -> seq<Fields>)
    requires Underway(start, log, s, accountId, cursor, polls, expected, arrivals)
    ensures |start| <= |log| && Holds(start, log, arrivals, polls, false) && Sees(log, s, accountId, cursor)
    ensures OnTime(cursor, polls, |start|, expected)
  {
  }

  /** Polls have not yet been enough. */
  ghost predicate OnTime(cursor: nat, polls: nat, held: nat, expected: int) {
    && Reached(cursor, polls, held) && (polls > 0 ==> cursor < expected)
    && (held >= expected ==> polls == 0 || polls < Needed(expected))
  }

  lemma NotYet(held: nat, expected: int)
    ensures OnTime(0, 0, held, expected)
  {
  }

  lemma OnTimeIs(cursor: nat, polls: nat, held: nat, expected: int)
    requires OnTime(cursor, polls, held, expected)
    ensures cursor <= 100 * polls && (polls > 0 ==> cursor < expected)
    ensures held >= expected ==> polls == Min(polls, Needed(expected))
  {
  }

  lemma NextOnTime(cursor: nat, cursor': nat, polls: nat, held: nat, length: nat, expected: int)
    requires OnTime(cursor, polls, held, expected) && held <= length && cursor <= length
    requires cursor' == cursor + PageSize(length - cursor)
    ensures cursor' < expected ==> OnTime(cursor', polls + 1, held, expected)
    ensures cursor' >= expected && held >= expected ==> polls + 1 == Needed(expected)
  {
    ReachesFurther(cursor, cursor', polls, held, length);
    if held >= expected {
      PollsNeeded(cursor', polls + 1, held, expected);
    }
    hide PageSize, Reached;
  }
}
