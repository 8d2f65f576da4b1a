/**
 The account as a value: commands, the fold over events, the table with one row per account, and
 the summary the read side builds.
 */
module AccountModel {
  import opened Basics
  import opened AccountEvents
  import opened Decimal

  datatype Command = Create(ownerId: string) | Deposit(cents: int) | Withdraw(cents: int)

  datatype Account = Account(accountId: string, ownerId: string, balance: int, version: nat, created: bool)

  const BLANK: Account := Account("", "", 0, 0, false)

  function Opened(accountId: string): Account {
    BLANK.(accountId := accountId)
  }

  /** `_apply`: an amount that is no number fails before anything changes. */
  function Apply(a: Account, e: Event): Result<Account> {
    match e
    case AccountCreated(id, owner) =>
      Ok(a.(accountId := id, ownerId := owner, created := true, version := a.version + 1))
    case MoneyDeposited(_, text) =>
      var n := FromText(text);
      if n.None? then Err(BadAmount(text)) else Ok(a.(balance := a.balance + n.value, version := a.version + 1))
    case MoneyWithdrawn(_, text) =>
      var n := FromText(text);
      if n.None? then Err(BadAmount(text)) else Ok(a.(balance := a.balance - n.value, version := a.version + 1))
  }

  /** The event a command produces, or why it is rejected. */
  function Decide(a: Account, c: Command): Result<Event> {
    match c
    case Create(owner) =>
      if a.created then Err(AlreadyCreated) else Ok(AccountCreated(a.accountId, owner))
    case Deposit(n) =>
      if !a.created then Err(NotCreated)
      else if n <= 0 then Err(AmountNotPositive)
      else Ok(MoneyDeposited(a.accountId, ToText(n)))
    case Withdraw(n) =>
      if !a.created then Err(NotCreated)
      else if n <= 0 then Err(AmountNotPositive)
      else if n > a.balance then Err(InsufficientFunds)
      else Ok(MoneyWithdrawn(a.accountId, ToText(n)))
  }

  function Replay(events: seq<Event>): Result<Account> {
    if events == [] then Ok(BLANK)
    else
      var before := Replay(events[..|events| - 1]);
      if before.Err? then before else Apply(before.value, events[|events| - 1])
  }

  /** An account object and the events it has produced. */
  datatype Live = Live(account: Account, events: seq<Event>)

  function Perform(s: Live, c: Command): Live {
    var r := Decide(s.account, c);
    if r.Err? then s
    else
      var applied := Apply(s.account, r.value);
      if applied.Err? then s else Live(applied.value, s.events + [r.value])
  }

  function PerformAll(accountId: string, commands: seq<Command>): Live {
    if commands == [] then Live(Opened(accountId), [])
    else Perform(PerformAll(accountId, commands[..|commands| - 1]), commands[|commands| - 1])
  }

  function Accepted(accountId: string, commands: seq<Command>, c: Command): bool {
    Decide(PerformAll(accountId, commands).account, c).Ok?
  }

  /** What the log holds and what is read back from it. */
  function Log(events: seq<Event>): seq<Fields> {
    seq(|events|, i requires 0 <= i < |events| => Entry(TypeOf(events[i]), ToDict(events[i])))
  }

  function DecodeAll(log: seq<Fields>): Result<seq<Event>> {
    if log == [] then Ok([])
    else
      var before := DecodeAll(log[..|log| - 1]);
      var last := DecodeEvent(log[|log| - 1]);
      if before.Err? then before
      else if last.Err? then Err(last.error)
      else Ok(before.value + [last.value])
  }

  lemma DecodeNext(log: seq<Fields>, entry: Fields)
    requires DecodeAll(log).Ok? && DecodeEvent(entry).Ok?
    ensures DecodeAll(log + [entry]) == Ok(DecodeAll(log).value + [DecodeEvent(entry).value])
  {
    assert (log + [entry])[..|log|] == log;
    hide DecodeEvent;
  }

  lemma LogNext(events: seq<Event>, e: Event)
    ensures Log(events + [e]) == Log(events) + [Entry(TypeOf(e), ToDict(e))]
  {
    hide TypeOf, ToDict, Entry;
  }

  lemma {:induction false} LogRoundTrip(events: seq<Event>)
    ensures DecodeAll(Log(events)) == Ok(events)
  {
    if events == [] {
    } else {
      var front, e := events[..|events| - 1], events[|events| - 1];
      assert events == front + [e];
      hide DecodeEvent, Entry, ToDict, TypeOf, Log, DecodeAll;
      LogRoundTrip(front);
      EventRoundTrip(e);
      LogNext(front, e);
      DecodeNext(Log(front), Entry(TypeOf(e), ToDict(e)));
    }
  }

  /** What an accepted command does to the balance. */
  function Effect(c: Command): int {
    match c
    case Create(_) => 0
    case Deposit(n) => n
    case Withdraw(n) => -n
  }

  /** A command that is decided on is applied, and moves the balance by its amount. */
  lemma DecidedIsApplied(a: Account, c: Command)
    requires Decide(a, c).Ok?
    ensures var r := Apply(a, Decide(a, c).value);
            && r.Ok? && r.value.created && r.value.version == a.version + 1 && r.value.accountId == a.accountId
            && r.value.ownerId == (if c.Create? then c.ownerId else a.ownerId)
            && r.value.balance == a.balance + Effect(c)
  {
    if c.Deposit? || c.Withdraw? {
      TextRoundTrip(c.cents);
    }
    hide ToText, FromText;
  }

  /** The account agrees with its events at every moment, and no balance is ever negative. */
  ghost predicate Agrees(accountId: string, s: Live) {
    && s.account.accountId == accountId
    && s.account.balance >= 0 && s.account.version == |s.events|
    && (s.account.created <==> s.events != [])
    && Replay(s.events) == Ok(if s.account.created then s.account else BLANK)
    && (!s.account.created ==> s.account == Opened(accountId))
  }

  lemma ReplayNext(events: seq<Event>, e: Event)
    requires Replay(events).Ok?
    ensures Replay(events + [e]) == Apply(Replay(events).value, e)
  {
    assert (events + [e])[..|events|] == events;
    hide Apply;
  }

  lemma FirstCommand(accountId: string, c: Command)
    requires Decide(Opened(accountId), c).Ok?
    ensures Apply(Opened(accountId), Decide(Opened(accountId), c).value)
         == Apply(BLANK, Decide(Opened(accountId), c).value)
  {
  }

  lemma PerformAgrees(accountId: string, s: Live, c: Command)
    requires Agrees(accountId, s)
    ensures Agrees(accountId, Perform(s, c))
  {
    var r := Decide(s.account, c);
    if r.Ok? {
      SolventWithdrawal(s.account, c);
      DecidedIsApplied(s.account, c);
      ReplayNext(s.events, r.value);
      if !s.account.created {
        FirstCommand(accountId, c);
      }
      hide Replay, Apply, Decide, Opened, BLANK;
    }
  }

  lemma SolventWithdrawal(a: Account, c: Command)
    requires Decide(a, c).Ok?
    ensures c.Withdraw? ==> c.cents <= a.balance
    ensures c.Deposit? ==> c.cents > 0
  {
  }

  lemma {:induction false} RunAgrees(accountId: string, commands: seq<Command>)
    ensures Agrees(accountId, PerformAll(accountId, commands))
  {
    if commands == [] {
    } else {
      var n := |commands| - 1;
      RunAgrees(accountId, commands[..n]);
      PerformAgrees(accountId, PerformAll(accountId, commands[..n]), commands[n]);
      hide Agrees, Perform;
    }
  }

  /** What an accepted command writes to its account's stream. */
  function WireOf(accountId: string, c: Command): Fields {
    match c
    case Create(owner) => map["event_type" := "AccountCreated", "account_id" := accountId, "owner_id" := owner]
    case Deposit(n) => map["event_type" := "MoneyDeposited", "account_id" := accountId, "amount" := ToText(n)]
    case Withdraw(n) => map["event_type" := "MoneyWithdrawn", "account_id" := accountId, "amount" := ToText(n)]
  }

  /** The accepted commands among `commands`, in order. */
  function AcceptedOnes(accountId: string, commands: seq<Command>): seq<Command> {
    if commands == [] then []
    else
      var front, c := commands[..|commands| - 1], commands[|commands| - 1];
      AcceptedOnes(accountId, front) + if Accepted(accountId, front, c) then [c] else []
  }

  lemma DecidedOnTheWire(a: Account, c: Command)
    requires Decide(a, c).Ok?
    ensures var e := Decide(a, c).value; Entry(TypeOf(e), ToDict(e)) == WireOf(a.accountId, c)
  {
    assert |TYPE| == 10 && |OWNER| == 8 && |AMOUNT| == 6 && ACCOUNT[0] != TYPE[0] && ACCOUNT[1] != AMOUNT[1];
    hide ToText;
  }

  /** The stream holds one entry for each accepted command, in order, saying which and how much. */
  lemma {:induction false} LogSaysWhatHappened(accountId: string, commands: seq<Command>)
    ensures var log, done := Log(PerformAll(accountId, commands).events), AcceptedOnes(accountId, commands);
            |log| == |done| && forall i :: 0 <= i < |log| ==> log[i] == WireOf(accountId, done[i])
  {
    if commands == [] {
    } else {
      var front, c := commands[..|commands| - 1], commands[|commands| - 1];
      LogSaysWhatHappened(accountId, front);
      RunAgrees(accountId, front);
      var s := PerformAll(accountId, front);
      if Decide(s.account, c).Ok? {
        DecidedOnTheWire(s.account, c);
        DecidedIsApplied(s.account, c);
        LogNext(s.events, Decide(s.account, c).value);
      }
      hide Decide, Apply, WireOf, TypeOf, ToDict, Entry, Log, Replay;
    }
  }

  /** What is on the account, told by the accepted commands alone. */
  function Moved(done: seq<Command>): int {
    if done == [] then 0
    else
      var c := done[|done| - 1];
      Moved(done[..|done| - 1]) + if c.Deposit? then c.cents else if c.Withdraw? then -c.cents else 0
  }

  lemma MovedNext(done: seq<Command>, c: Command)
    ensures Moved(done + [c]) == Moved(done) + Effect(c)
  {
    assert (done + [c])[..|done|] == done;
  }

  lemma PerformMoves(s: Live, c: Command)
    ensures Perform(s, c).account.balance == s.account.balance + if Decide(s.account, c).Ok? then Effect(c) else 0
  {
    if Decide(s.account, c).Ok? {
      DecidedIsApplied(s.account, c);
    }
    hide Decide, Apply;
  }

  lemma {:induction false} BalanceIsMoved(accountId: string, commands: seq<Command>)
    ensures PerformAll(accountId, commands).account.balance == Moved(AcceptedOnes(accountId, commands))
  {
    hide Decide, Apply, Perform;
    if commands == [] {
    } else {
      var front, c := commands[..|commands| - 1], commands[|commands| - 1];
      BalanceIsMoved(accountId, front);
      PerformMoves(PerformAll(accountId, front), c);
      MovedNext(AcceptedOnes(accountId, front), c);
      assert AcceptedOnes(accountId, front) + [] == AcceptedOnes(accountId, front);
      hide Moved;
    }
  }

  /**
   The balance is the accepted deposits less the accepted withdrawals, and a command is accepted
   exactly when it makes sense: one creation, first, and then amounts above zero and covered.
   */
  lemma BalanceIsDepositsLessWithdrawals(accountId: string, commands: seq<Command>, c: Command)
    ensures var done := AcceptedOnes(accountId, commands);
            && PerformAll(accountId, commands).account.balance == Moved(done)
            && (Accepted(accountId, commands, c) <==>
                  match c
                  case Create(_) => done == []
                  case Deposit(n) => done != [] && n > 0
                  case Withdraw(n) => done != [] && 0 < n <= Moved(done))
  {
    RunAgrees(accountId, commands);
    LogSaysWhatHappened(accountId, commands);
    BalanceIsMoved(accountId, commands);
    var s := PerformAll(accountId, commands);
    assert |Log(s.events)| == |s.events|;
    hide Log, Replay, WireOf, DecodeAll, PerformAll, Moved, AcceptedOnes;
  }

  /** After any commands, accepted and rejected, the account is what its encoded and decoded log replays to. */
  lemma LiveEqualsReplay(accountId: string, commands: seq<Command>)
    ensures var s := PerformAll(accountId, commands);
            var decoded := DecodeAll(Log(s.events));
            && decoded.Ok?
            && (Replay(decoded.value) == Ok(s.account) <==> s.account.created || accountId == "")
  {
    RunAgrees(accountId, commands);
    LogRoundTrip(PerformAll(accountId, commands).events);
    hide PerformAll, DecodeAll, Replay;
  }

  lemma {:induction false} EventsGrow(accountId: string, commands: seq<Command>, n: nat)
    requires n <= |PerformAll(accountId, commands).events|
    ensures exists m: nat ::
              && m <= |commands|
              && PerformAll(accountId, commands[..m]).events == PerformAll(accountId, commands).events[..n]
  {
    var s := PerformAll(accountId, commands);
    if n == |s.events| {
      assert commands[..|commands|] == commands && s.events[..n] == s.events;
      assert PerformAll(accountId, commands[..|commands|]).events == s.events[..n];
    } else {
      var k := |commands| - 1;
      var before := PerformAll(accountId, commands[..k]);
      EventsGrow(accountId, commands[..k], n);
      var m: nat :| m <= k && PerformAll(accountId, commands[..k][..m]).events == before.events[..n];
      assert commands[..k][..m] == commands[..m];
      assert s.events[..n] == before.events[..n];
    }
  }

  /** No prefix of the log ever replays to a negative balance. */
  lemma EveryPrefixIsSolvent(accountId: string, commands: seq<Command>, n: nat)
    requires n <= |PerformAll(accountId, commands).events|
    ensures var r := Replay(PerformAll(accountId, commands).events[..n]);
            r.Ok? && r.value.balance >= 0 && r.value.version == n
  {
    EventsGrow(accountId, commands, n);
    var m: nat :| m <= |commands|
        && PerformAll(accountId, commands[..m]).events == PerformAll(accountId, commands).events[..n];
    RunAgrees(accountId, commands[..m]);
    hide PerformAll, Replay;
  }

  /** The table with one mutable row per account. */
  datatype AccountRow = AccountRow(ownerId: string, balance: int)

  datatype NaiveError = RowExists | AmountRejected | AccountNotFound | Overdrawn

  datatype NaiveResult = Done(rows: map<string, AccountRow>, balance: int) | Refused(error: NaiveError)

  function NaiveDo(rows: map<string, AccountRow>, id: string, c: Command): NaiveResult {
    match c
    case Create(owner) =>
      if id in rows then Refused(RowExists) else Done(rows[id := AccountRow(owner, 0)], 0)
    case Deposit(n) =>
      if n <= 0 then Refused(AmountRejected)
      else if id !in rows then Refused(AccountNotFound)
      else Done(rows[id := rows[id].(balance := rows[id].balance + n)], rows[id].balance + n)
    case Withdraw(n) =>
      if n <= 0 then Refused(AmountRejected)
      else if id !in rows then Refused(AccountNotFound)
      else if n > rows[id].balance then Refused(Overdrawn)
      else Done(rows[id := rows[id].(balance := rows[id].balance - n)], rows[id].balance - n)
  }

  function NaiveAll(rows: map<string, AccountRow>, id: string, commands: seq<Command>): map<string, AccountRow> {
    if commands == [] then rows
    else
      var before := NaiveAll(rows, id, commands[..|commands| - 1]);
      var r := NaiveDo(before, id, commands[|commands| - 1]);
      if r.Done? then r.rows else before
  }

  ghost predicate SameAccount(rows: map<string, AccountRow>, id: string, a: Account) {
    && (id in rows <==> a.created)
    && (id in rows ==> rows[id] == AccountRow(a.ownerId, a.balance))
  }

  lemma NaiveStep(rows: map<string, AccountRow>, id: string, s: Live, c: Command)
    requires SameAccount(rows, id, s.account) && (!s.account.created ==> s.account.balance == 0)
    ensures NaiveDo(rows, id, c).Done? <==> Decide(s.account, c).Ok?
    ensures NaiveDo(rows, id, c).Done? ==>
              && SameAccount(NaiveDo(rows, id, c).rows, id, Perform(s, c).account)
              && NaiveDo(rows, id, c).balance == Perform(s, c).account.balance
              && NaiveDo(rows, id, c).rows - {id} == rows - {id}
  {
    if Decide(s.account, c).Ok? {
      DecidedIsApplied(s.account, c);
    }
    hide Apply, ToText;
  }

  lemma {:induction false} NaiveAgrees(rows: map<string, AccountRow>, id: string, commands: seq<Command>)
    requires id !in rows
    ensures SameAccount(NaiveAll(rows, id, commands), id, PerformAll(id, commands).account)
    ensures NaiveAll(rows, id, commands) - {id} == rows
  {
    if commands == [] {
    } else {
      var n := |commands| - 1;
      NaiveAgrees(rows, id, commands[..n]);
      RunAgrees(id, commands[..n]);
      NaiveStep(NaiveAll(rows, id, commands[..n]), id, PerformAll(id, commands[..n]), commands[n]);
      hide SameAccount, NaiveDo, Replay;
    }
  }

  /**
   Behind any history the event-sourced account and the table accept the same commands, and an
   accepted one leaves both with the same balance; other rows are never touched.
   */
  lemma SameAnswersAsTheTable(rows: map<string, AccountRow>, id: string, commands: seq<Command>, c: Command)
    requires id !in rows
    ensures var r := NaiveDo(NaiveAll(rows, id, commands), id, c);
            && (r.Done? <==> Accepted(id, commands, c))
            && (r.Done? ==> r.balance == PerformAll(id, commands + [c]).account.balance && r.rows - {id} == rows)
  {
    NaiveAgrees(rows, id, commands);
    RunAgrees(id, commands);
    NaiveStep(NaiveAll(rows, id, commands), id, PerformAll(id, commands), c);
    assert (commands + [c])[..|commands|] == commands;
    hide SameAccount, NaiveDo, Replay, Decide, Perform;
  }

  /** The same reason in the words of either side. */
  predicate SameReason(e: NaiveError, r: Error) {
    match e
    case RowExists => r == AlreadyCreated
    case AmountRejected => r == AmountNotPositive
    case AccountNotFound => r == NotCreated
    case Overdrawn => r == InsufficientFunds
  }

  /**
   A refused command is refused for the same reason by both, unless its amount is not positive and
   the account was never created: the table looks at the amount first, the account at itself.
   */
  lemma ReasonsDifferIff(rows: map<string, AccountRow>, id: string, commands: seq<Command>, c: Command)
    requires id !in rows
    ensures var r := NaiveDo(NaiveAll(rows, id, commands), id, c);
            var a := PerformAll(id, commands).account;
            r.Refused? ==>
              && Decide(a, c).Err?
              && (SameReason(r.error, Decide(a, c).error) <==> a.created || c.Create? || c.cents > 0)
  {
    NaiveAgrees(rows, id, commands);
    RunAgrees(id, commands);
    NaiveStep(NaiveAll(rows, id, commands), id, PerformAll(id, commands), c);
    hide NaiveAll, PerformAll, Replay, Apply, ToText;
  }
}
