/**
 The account object, the table it is compared with, the event store with one stream per account,
 and the projector that polls a stream page by page while others append to it.
 */
module EventSourcing {
  import opened Basics
  import opened AccountEvents
  import opened AccountModel
  import opened Decimal

  class BankAccount {
    var accountId: string
    var ownerId: string
    var balance: int
    var version: nat
    var created: bool

    function Value(): Account
      reads this
    {
      Account(accountId, ownerId, balance, version, created)
    }

    constructor (accountId: string)
      ensures Value() == Opened(accountId)
    {
      this.accountId, ownerId, balance, version, created := accountId, "", 0, 0, false;
    }

    method ApplyEvent(e: Event) returns (r: Result<Account>)
      modifies this
      ensures r == Apply(old(Value()), e)
      ensures Value() == if r.Ok? then r.value else old(Value())
    {
      match e {
        case AccountCreated(id, owner) =>
          accountId, ownerId, created := id, owner, true;
        case MoneyDeposited(_, text) =>
          var n := FromText(text);
          if n.None? {
            return Err(BadAmount(text));
          }
          balance := balance + n.value;
        case MoneyWithdrawn(_, text) =>
          var n := FromText(text);
          if n.None? {
            return Err(BadAmount(text));
          }
          balance := balance - n.value;
      }
      version := version + 1;
      return Ok(Value());
    }

    method Create(ownerId: string) returns (r: Result<Event>)
      modifies this
      ensures r == Decide(old(Value()), Command.Create(ownerId))
      ensures r.Ok? <==> !old(created)
      ensures Value() == Perform(Live(old(Value()), []), Command.Create(ownerId)).account
    {
      if created {
        return Err(AlreadyCreated);
      }
      var e := AccountCreated(accountId, ownerId);
      var applied := ApplyEvent(e);
      return Ok(e);
    }

    method Deposit(n: int) returns (r: Result<Event>)
      modifies this
      ensures r == Decide(old(Value()), Command.Deposit(n))
      ensures r.Ok? <==> old(created) && n > 0
      ensures r.Ok? ==> r.value == MoneyDeposited(old(accountId), ToText(n))
      ensures balance == old(balance) + if r.Ok? then n else 0
      ensures Value() == Perform(Live(old(Value()), []), Command.Deposit(n)).account
    {
      if !created {
        return Err(NotCreated);
      }
      if n <= 0 {
        return Err(AmountNotPositive);
      }
      TextRoundTrip(n);
      hide ToText, FromText;
      var e := MoneyDeposited(accountId, ToText(n));
      var applied := ApplyEvent(e);
      return Ok(e);
    }

    method Withdraw(n: int) returns (r: Result<Event>)
      modifies this
      ensures r == Decide(old(Value()), Command.Withdraw(n))
      ensures r.Ok? <==> old(created) && 0 < n <= old(balance)
      ensures r.Ok? ==> r.value == MoneyWithdrawn(old(accountId), ToText(n))
      ensures balance == old(balance) - if r.Ok? then n else 0
      ensures Value() == Perform(Live(old(Value()), []), Command.Withdraw(n)).account
    {
      if !created {
        return Err(NotCreated);
      }
      if n <= 0 {
        return Err(AmountNotPositive);
      }
      if n > balance {
        return Err(InsufficientFunds);
      }
      TextRoundTrip(n);
      hide ToText, FromText;
      var e := MoneyWithdrawn(accountId, ToText(n));
      var applied := ApplyEvent(e);
      return Ok(e);
    }
  }

  /** `replay`: the first event that cannot be applied ends it. */
  method ReplayEvents(events: seq<Event>) returns (account: BankAccount, r: Result<Account>)
    ensures fresh(account) && r == Replay(events)
    ensures r.Ok? ==> account.Value() == r.value
  {
    account := new BankAccount("");
    r := Ok(account.Value());
    for i := 0 to |events|
      invariant fresh(account) && r.Ok? && r == Replay(events[..i]) && account.Value() == r.value
    {
      assert events[..i + 1][..i] == events[..i];
      r := account.ApplyEvent(events[i]);
      if r.Err? {
        ReplayStaysFailed(events, i + 1);
        return;
      }
    }
    assert events[..|events|] == events;
  }

  lemma {:induction false} ReplayStaysFailed(events: seq<Event>, i: nat)
    requires i <= |events| && Replay(events[..i]).Err?
    ensures Replay(events) == Replay(events[..i])
  {
    if i == |events| {
      assert events[..i] == events;
    } else {
      assert events[..|events| - 1][..i] == events[..i];
      ReplayStaysFailed(events[..|events| - 1], i);
    }
  }

  /** The table that overwrites the balance in place. */
  class NaiveAccounts {
    var rows: map<string, AccountRow>

    constructor ()
      ensures rows == map[]
    {
      rows := map[];
    }

    method CreateAccount(id: string, ownerId: string) returns (r: NaiveResult)
      modifies this
      ensures r == NaiveDo(old(rows), id, Command.Create(ownerId))
      ensures rows == if r.Done? then r.rows else old(rows)
    {
      if id in rows {
        return Refused(RowExists);
      }
      rows := rows[id := AccountRow(ownerId, 0)];
      return Done(rows, 0);
    }

    method OverwriteBalance(id: string, balance: int) returns (r: NaiveResult)
      requires id in rows
      modifies this
      ensures rows == old(rows)[id := old(rows)[id].(balance := balance)] && r == Done(rows, balance)
    {
      rows := rows[id := rows[id].(balance := balance)];
      return Done(rows, balance);
    }

    method Deposit(id: string, n: int) returns (r: NaiveResult)
      modifies this
      ensures r == NaiveDo(old(rows), id, Command.Deposit(n))
      ensures rows == if r.Done? then r.rows else old(rows)
    {
      if n <= 0 {
        return Refused(AmountRejected);
      }
      if id !in rows {
        return Refused(AccountNotFound);
      }
      r := OverwriteBalance(id, rows[id].balance + n);
    }

    method Withdraw(id: string, n: int) returns (r: NaiveResult)
      modifies this
      ensures r == NaiveDo(old(rows), id, Command.Withdraw(n))
      ensures rows == if r.Done? then r.rows else old(rows)
    {
      if n <= 0 {
        return Refused(AmountRejected);
      }
      if id !in rows {
        return Refused(AccountNotFound);
      }
      if n > rows[id].balance {
        return Refused(Overdrawn);
      }
      r := OverwriteBalance(id, rows[id].balance - n);
    }
  }

  /**
   Both accounts driven by the same commands: they accept the same ones, end with the same balance,
   and the account is what the events it appended to the store replay to.
   */
  method RunBoth(store: EventStore, table: NaiveAccounts, id: string,
      commands: seq<Command>) returns (account: BankAccount)
    requires store.Stream(id) == [] && id !in table.rows
    modifies store, table
    ensures fresh(account) && account.Value() == PerformAll(id, commands).account
    ensures store.Stream(id) == Log(PerformAll(id, commands).events)
    ensures table.rows == NaiveAll(old(table.rows), id, commands)
    ensures account.created <==> id in table.rows
    ensures account.created ==> table.rows[id].balance == account.balance
    ensures account.created ==>
          && DecodeAll(store.Stream(id)).Ok?
          && Replay(DecodeAll(store.Stream(id)).value) == Ok(account.Value())
  {
    account := new BankAccount(id);
    assert commands[..0] == [] && Log([]) == [];
    for i := 0 to |commands|
      invariant fresh(account) && account.Value() == PerformAll(id, commands[..i]).account
      invariant store.Stream(id) == Log(PerformAll(id, commands[..i]).events)
      invariant table.rows == NaiveAll(old(table.rows), id, commands[..i])
    {
      assert commands[..i + 1][..i] == commands[..i];
      hide NaiveDo, Decide, Apply, NaiveAll, PerformAll, Log;
      BothNext(store, table, account, id, commands, i, old(table.rows));
    }
    assert commands[..|commands|] == commands;
    NaiveAgrees(old(table.rows), id, commands);
    LiveEqualsReplay(id, commands);
  }

  method BothNext(store: EventStore, table: NaiveAccounts, account: BankAccount, id: string,
                  commands: seq<Command>, i: nat, ghost start: map<string, AccountRow>)
    requires i < |commands|
    requires account.Value() == PerformAll(id, commands[..i]).account
    requires store.Stream(id) == Log(PerformAll(id, commands[..i]).events)
    requires table.rows == NaiveAll(start, id, commands[..i])
    modifies store, table, account
    ensures account.Value() == PerformAll(id, commands[..i + 1]).account
    ensures store.Stream(id) == Log(PerformAll(id, commands[..i + 1]).events)
    ensures table.rows == NaiveAll(start, id, commands[..i + 1])
  {
    assert commands[..i + 1][..i] == commands[..i] && commands[..i + 1][i] == commands[i];
    ghost var s := PerformAll(id, commands[..i]);
    assert PerformAll(id, commands[..i + 1]) == Perform(s, commands[i]);
    var r: Result<Event>;
    var n: NaiveResult;
    match commands[i] {
      case Create(owner) =>
        r := account.Create(owner);
        n := table.CreateAccount(id, owner);
      case Deposit(cents) =>
        r := account.Deposit(cents);
        n := table.Deposit(id, cents);
      case Withdraw(cents) =>
        r := account.Withdraw(cents);
        n := table.Withdraw(id, cents);
    }
    assert r == Decide(s.account, commands[i]);
    if r.Ok? {
      DecidedIsApplied(s.account, commands[i]);
      LogNext(s.events, r.value);
      store.Append(id, TypeOf(r.value), ToDict(r.value));
    }
  }

  const PAGE: nat := 100

  class EventStore {
    var streams: map<string, seq<Fields>>

    constructor ()
      ensures streams == map[]
    {
      streams := map[];
    }

    function Stream(accountId: string): seq<Fields>
      reads this
    {
      if accountId in streams then streams[accountId] else []
    }

    method Append(accountId: string, eventType: string, payload: Fields)
      modifies this
      ensures Stream(accountId) == old(Stream(accountId)) + [Entry(eventType, payload)]
      ensures forall other :: other != accountId ==> Stream(other) == old(Stream(other))
    {
      streams := streams[accountId := Stream(accountId) + [Entry(eventType, payload)]];
    }

    /** Entries other writers add. */
    method AppendRaw(accountId: string, entries: seq<Fields>)
      modifies this
      ensures Stream(accountId) == old(Stream(accountId)) + entries
    {
      streams := streams[accountId := Stream(accountId) + entries];
    }

    /** One page from the cursor, so from the beginning the whole history only if it fits one. */
    method Read(accountId: string, from: nat) returns (page: seq<Fields>)
      ensures from <= |Stream(accountId)| ==>
            && page <= Stream(accountId)[from..]
            && |page| == PageSize(|Stream(accountId)| - from) && |page| == Min(100, |Stream(accountId)| - from)
      ensures from > |Stream(accountId)| ==> page == []
      ensures from == 0 ==> (page == Stream(accountId) <==> |Stream(accountId)| <= 100)
    {
      var log := Stream(accountId);
      if from > |log| {
        return [];
      }
      page := log[from..];
      if |page| > PAGE {
        page := page[..PAGE];
      }
    }
  }

  function PageSize(unread: nat): nat {
    if unread <= PAGE then unread else PAGE
  }
}
