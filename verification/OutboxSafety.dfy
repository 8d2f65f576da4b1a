/**
 What holds after any run: nothing committed is lost, the stream repeats elements of the insertion
 order but never skips or reorders them, and every repeat is paid for by a crash.
 */
module OutboxSafety {
  import opened OutboxProtocol

  /** The outbox is the tail of the insertion order, numbered from `deleted + 1`. */
  ghost predicate IsTail(outbox: seq<Row>, inserted: seq<Order>, deleted: nat) {
    && deleted + |outbox| == |inserted|
    && forall k :: 0 <= k < |outbox| ==> outbox[k] == Row(deleted + k + 1, inserted[deleted + k])
  }

  ghost predicate SameOrders(db: Db, inserted: seq<Order>) {
    && db.lastId == |inserted|
    && (forall o :: o in db.orders ==> db.orders[o] in inserted)
    && (forall k :: 0 <= k < |inserted| ==>
          && inserted[k].orderId in db.orders
          && db.orders[inserted[k].orderId] == inserted[k])
  }

  /** Each entry repeats the one before or is the next in order. */
  ghost predicate Stutters(sent: seq<nat>) {
    && (sent != [] ==> sent[0] == 1)
    && forall i :: 0 < i < |sent| ==> sent[i] == sent[i - 1] || sent[i] == sent[i - 1] + 1
  }

  ghost predicate StreamOf(stream: seq<Order>, sent: seq<nat>, inserted: seq<Order>) {
    && |stream| == |sent|
    && forall i :: 0 <= i < |sent| ==> 1 <= sent[i] <= |inserted| && stream[i] == inserted[sent[i] - 1]
  }

  /** The newest row on the stream. */
  function Published(sent: seq<nat>): nat {
    if sent == [] then 0 else sent[|sent| - 1]
  }

  function Deleted(s: System): int {
    |s.inserted| - |s.db.outbox|
  }

  /** The page the relay works through is what the outbox starts with. */
  ghost predicate PageHolds(s: System) {
    match s.local
    case Down => true
    case Polling => true
    case Publishing(rows) => rows != [] && rows <= s.db.outbox
    case Deleting(rows) => rows != [] && rows <= s.db.outbox && Published(s.sent) == Deleted(s) + 1
  }

  /** Every publish of row `id` was followed by its delete, by a crash, or is the one in hand. */
  ghost predicate PaidFor(s: System, id: nat) {
    multiset(s.sent)[id] == multiset(s.crashed)[id] + (if 1 <= id <= Deleted(s) then 1 else 0)
                          + (if s.local.Deleting? && id == Deleted(s) + 1 then 1 else 0)
  }

  ghost predicate Paid(s: System) {
    forall id: nat :: PaidFor(s, id)
  }

  ghost predicate Inv(s: System) {
    && Deleted(s) >= 0
    && IsTail(s.db.outbox, s.inserted, Deleted(s))
    && SameOrders(s.db, s.inserted)
    && Stutters(s.sent) && StreamOf(s.stream, s.sent, s.inserted)
    && Deleted(s) <= Published(s.sent) <= Deleted(s) + 1
    && PageHolds(s)
  }

  lemma {:induction false} DeleteAbsent(outbox: seq<Row>, id: nat)
    requires forall k :: 0 <= k < |outbox| ==> outbox[k].id != id
    ensures Delete(outbox, id) == outbox
  {
    if outbox == [] {
    } else {
      DeleteAbsent(outbox[1..], id);
    }
  }

  /** Deleting the oldest row by its id removes that row and no other. */
  lemma DeleteOldest(outbox: seq<Row>, inserted: seq<Order>, deleted: nat)
    requires IsTail(outbox, inserted, deleted) && outbox != []
    ensures Delete(outbox, outbox[0].id) == outbox[1..]
    ensures IsTail(outbox[1..], inserted, deleted + 1)
  {
    DeleteAbsent(outbox[1..], outbox[0].id);
  }

  lemma InsertTables(s: System, order: Order)
    requires Deleted(s) >= 0 && IsTail(s.db.outbox, s.inserted, Deleted(s)) && SameOrders(s.db, s.inserted)
    ensures var s' := Step(s, Insert(order));
            && Deleted(s') == Deleted(s) && SameOrders(s'.db, s'.inserted)
            && IsTail(s'.db.outbox, s'.inserted, Deleted(s'))
            && s.db.outbox <= s'.db.outbox && s.inserted <= s'.inserted
  {
  }

  lemma StreamGrows(stream: seq<Order>, sent: seq<nat>, inserted: seq<Order>, inserted': seq<Order>)
    requires StreamOf(stream, sent, inserted) && inserted <= inserted'
    ensures StreamOf(stream, sent, inserted')
  {
  }

  lemma InsertStep(s: System, order: Order)
    requires Inv(s)
    ensures Inv(Step(s, Insert(order)))
    ensures var s' := Step(s, Insert(order));
            && Deleted(s') == Deleted(s) && s'.local == s.local
            && s.db.outbox <= s'.db.outbox && |s.inserted| <= |s'.inserted|
  {
    InsertTables(s, order);
    var s' := Step(s, Insert(order));
    assert s'.local == s.local && s'.sent == s.sent && s'.stream == s.stream;
    hide Step, IsTail, SameOrders, StreamOf, Stutters, Deleted;
    StreamGrows(s.stream, s.sent, s.inserted, s'.inserted);
  }

  lemma StuttersNext(sent: seq<nat>, id: nat)
    requires Stutters(sent) && (id == Published(sent) || id == Published(sent) + 1) && id >= 1
    ensures Stutters(sent + [id]) && Published(sent + [id]) == id
  {
  }

  lemma StreamNext(stream: seq<Order>, sent: seq<nat>, inserted: seq<Order>, id: nat)
    requires StreamOf(stream, sent, inserted) && 1 <= id <= |inserted|
    ensures StreamOf(stream + [inserted[id - 1]], sent + [id], inserted)
  {
  }

  lemma PublishStep(s: System)
    requires Inv(s) && s.local.Publishing?
    ensures Inv(Step(s, Advance)) && Deleted(Step(s, Advance)) == Deleted(s)
    ensures Step(s, Advance).sent == s.sent + [Deleted(s) + 1]
  {
    var id := Deleted(s) + 1;
    assert s.local.rows[0] == s.db.outbox[0] == Row(id, s.inserted[id - 1]);
    hide SameOrders, IsTail, StreamOf, Stutters, Published;
    StuttersNext(s.sent, id);
    StreamNext(s.stream, s.sent, s.inserted, id);
  }

  lemma DeleteStep(s: System)
    requires Inv(s) && s.local.Deleting?
    ensures Inv(Step(s, Advance)) && Deleted(Step(s, Advance)) == Deleted(s) + 1
  {
    var rows := s.local.rows;
    assert rows[0] == s.db.outbox[0];
    DeleteOldest(s.db.outbox, s.inserted, Deleted(s));
    assert rows[1..] <= s.db.outbox[1..];
    hide IsTail, Stutters, StreamOf, Delete;
  }

  lemma InvStep(s: System, l: Label)
    requires Inv(s)
    ensures Inv(Step(s, l))
  {
    match l
    case Insert(order) => InsertStep(s, order); hide Inv;
    case Start =>
    case Advance =>
      if s.local.Publishing? {
        PublishStep(s);
        hide Inv;
      } else if s.local.Deleting? {
        DeleteStep(s);
        hide Inv;
      }
    case FailPublish =>
    case Crash =>
  }

  lemma PaidForPublish(s: System, id: nat)
    requires Inv(s) && PaidFor(s, id) && s.local.Publishing?
    ensures PaidFor(Step(s, Advance), id)
  {
    PublishStep(s);
    assert s.local.rows != [];
    hide Inv, Deleted;
  }

  lemma PaidForDelete(s: System, id: nat)
    requires Inv(s) && PaidFor(s, id) && s.local.Deleting?
    ensures PaidFor(Step(s, Advance), id)
  {
    DeleteStep(s);
    assert s.local.rows != [];
    hide Inv, Delete, Deleted;
  }

  lemma PaidForAdvance(s: System, id: nat)
    requires Inv(s) && PaidFor(s, id)
    ensures PaidFor(Step(s, Advance), id)
  {
    if s.local.Publishing? {
      PaidForPublish(s, id);
      hide Inv, Step, PaidFor;
    } else if s.local.Deleting? {
      PaidForDelete(s, id);
      hide Inv, Step, PaidFor;
    }
  }

  lemma PaidForCrash(s: System, id: nat)
    requires Inv(s) && PaidFor(s, id)
    ensures PaidFor(Step(s, Crash), id)
  {
    if s.local.Deleting? {
      assert s.local.rows[0] == s.db.outbox[0];
    }
    hide SameOrders, Stutters, StreamOf;
  }

  lemma PaidForStep(s: System, l: Label, id: nat)
    requires Inv(s) && PaidFor(s, id)
    ensures PaidFor(Step(s, l), id)
  {
    match l
    case Insert(order) => InsertStep(s, order); hide Inv, Deleted;
    case Start =>
    case Advance => PaidForAdvance(s, id); hide PaidFor, Step;
    case FailPublish =>
    case Crash => PaidForCrash(s, id); hide PaidFor, Step;
  }

  lemma PaidStep(s: System, l: Label)
    requires Inv(s) && Paid(s)
    ensures Paid(Step(s, l))
  {
    forall id: nat ensures PaidFor(Step(s, l), id) {
      PaidForStep(s, l, id);
    }
    hide Inv, PaidFor, Step;
  }

  lemma {:induction false} RunHolds(trace: seq<Label>)
    ensures Inv(Exec(Initial(), trace)) && Paid(Exec(Initial(), trace))
  {
    if trace == [] {
    } else {
      var before := trace[..|trace| - 1];
      RunHolds(before);
      InvStep(Exec(Initial(), before), trace[|trace| - 1]);
      PaidStep(Exec(Initial(), before), trace[|trace| - 1]);
      hide Inv, Paid, Step;
    }
  }

  lemma {:induction false} EveryRowUpToTheNewest(sent: seq<nat>, id: nat)
    requires Stutters(sent) && 1 <= id <= Published(sent)
    ensures exists i :: 0 <= i < |sent| && sent[i] == id
  {
    var n := |sent| - 1;
    if id == sent[n] {
    } else {
      EveryRowUpToTheNewest(sent[..n], id);
    }
  }

  lemma InsertedIsSomewhere(s: System, k: nat)
    requires Inv(s) && k < |s.inserted|
    ensures s.inserted[k] in s.stream || exists j :: 0 <= j < |s.db.outbox| && s.db.outbox[j].order == s.inserted[k]
  {
    if k < Deleted(s) {
      EveryRowUpToTheNewest(s.sent, k + 1);
      var i :| 0 <= i < |s.sent| && s.sent[i] == k + 1;
      assert s.stream[i] == s.inserted[k];
    } else {
      assert s.db.outbox[k - Deleted(s)].order == s.inserted[k];
    }
    hide Stutters, SameOrders, PageHolds;
  }

  /** No committed order is lost: it waits in the outbox or is on the stream. */
  lemma CommittedIsNotLost(trace: seq<Label>, orderId: string)
    requires orderId in Exec(Initial(), trace).db.orders
    ensures var s := Exec(Initial(), trace); var order := s.db.orders[orderId];
            order in s.stream || exists k :: 0 <= k < |s.db.outbox| && s.db.outbox[k].order == order
  {
    RunHolds(trace);
    var s := Exec(Initial(), trace);
    var k: nat :| k < |s.inserted| && s.inserted[k] == s.db.orders[orderId];
    InsertedIsSomewhere(s, k);
    hide Exec, Inv, Paid;
  }

  /** And nothing is sent that was not committed first. */
  lemma SentWasCommitted(trace: seq<Label>, i: nat)
    requires i < |Exec(Initial(), trace).stream|
    ensures var s := Exec(Initial(), trace);
            s.stream[i].orderId in s.db.orders && s.db.orders[s.stream[i].orderId] == s.stream[i]
  {
    RunHolds(trace);
    hide Exec;
  }

  /** The stream is a prefix of the insertion order with elements repeated in place. */
  lemma StreamIsAStutteringPrefix(trace: seq<Label>)
    ensures var s := Exec(Initial(), trace);
            && Stutters(s.sent) && StreamOf(s.stream, s.sent, s.inserted)
            && Published(s.sent) <= |s.inserted|
            && forall id: nat :: 1 <= id <= Published(s.sent) ==> id in s.sent
  {
    RunHolds(trace);
    var s := Exec(Initial(), trace);
    forall id: nat | 1 <= id <= Published(s.sent) ensures id in s.sent {
      EveryRowUpToTheNewest(s.sent, id);
    }
    hide Exec, Paid;
  }

  /** How often a crash fell between the publish of row `id` and its delete. */
  function CrashesOn(s: System, id: nat): nat {
    multiset(s.crashed)[id]
  }

  /** A row is sent at most once more than relays crashed holding it, and once exactly when deleted without a crash. */
  lemma RepeatsArePaidByCrashes(trace: seq<Label>, id: nat)
    ensures var s := Exec(Initial(), trace);
            && multiset(s.sent)[id] <= 1 + CrashesOn(s, id)
            && (1 <= id <= Deleted(s) ==> multiset(s.sent)[id] == 1 + CrashesOn(s, id))
  {
    RunHolds(trace);
    hide Exec, Inv;
    assert PaidFor(Exec(Initial(), trace), id);
  }

  function Crashes(trace: seq<Label>): nat {
    if trace == [] then 0
    else Crashes(trace[..|trace| - 1]) + if trace[|trace| - 1].Crash? then 1 else 0
  }

  lemma {:induction false} StreamLength(trace: seq<Label>)
    ensures var s := Exec(Initial(), trace);
            && |s.sent| == Deleted(s) + |s.crashed| + (if s.local.Deleting? then 1 else 0)
            && |s.crashed| <= Crashes(trace)
  {
    if trace == [] {
    } else {
      var t, l := trace[..|trace| - 1], trace[|trace| - 1];
      StreamLength(t);
      RunHolds(t);
      var s := Exec(Initial(), t);
      LengthStep(s, l);
      hide Exec, Step, Inv, Paid;
      assert Exec(Initial(), trace) == Step(s, l);
    }
  }

  lemma LengthStep(s: System, l: Label)
    requires Inv(s)
    requires |s.sent| == Deleted(s) + |s.crashed| + (if s.local.Deleting? then 1 else 0)
    ensures var s' := Step(s, l);
            && |s'.sent| == Deleted(s') + |s'.crashed| + (if s'.local.Deleting? then 1 else 0)
            && |s'.crashed| <= |s.crashed| + (if l.Crash? then 1 else 0)
  {
    if l.Advance? && s.local.Deleting? {
      DeleteStep(s);
    } else if l.Insert? {
      InsertStep(s, l.order);
    }
    hide IsTail, SameOrders, Stutters, StreamOf;
  }

  /** Conservation: the stream holds what was deleted, what is in hand, and one repeat per crash in the window. */
  lemma StreamIsAccountedFor(trace: seq<Label>)
    ensures var s := Exec(Initial(), trace);
            && |s.stream| + |s.db.outbox| == |s.inserted| + |s.crashed| + (if s.local.Deleting? then 1 else 0)
            && |s.crashed| <= Crashes(trace)
  {
    StreamLength(trace);
    RunHolds(trace);
    hide Exec;
  }

  /** A concrete double send: the crash between publish and delete repeats the order. */
  lemma CrashRepeats(order: Order)
    ensures Exec(Initial(), [Insert(order), Start, Advance, Advance, Crash, Start, Advance, Advance]).stream
         == [order, order]
  {
    var row := Row(1, order);
    var t0: seq<Label> := [];
    var t1 := t0 + [Insert(order)];
    ExecNext(Initial(), t0, Insert(order));
    var t2 := t1 + [Start];
    ExecNext(Initial(), t1, Start);
    var t3 := t2 + [Advance];
    ExecNext(Initial(), t2, Advance);
    var t4 := t3 + [Advance];
    ExecNext(Initial(), t3, Advance);
    var t5 := t4 + [Crash];
    ExecNext(Initial(), t4, Crash);
    var t6 := t5 + [Start];
    ExecNext(Initial(), t5, Start);
    var t7 := t6 + [Advance];
    ExecNext(Initial(), t6, Advance);
    var t8 := t7 + [Advance];
    ExecNext(Initial(), t7, Advance);
    var db := Db(map[order.orderId := order], [row], 1);
    assert Step(Initial(), Insert(order)) == System(db, [], Down, [order], [], []);
    assert Exec(Initial(), t0) == Initial();
    assert t8 == [Insert(order), Start, Advance, Advance, Crash, Start, Advance, Advance];
    hide Exec;
  }

  lemma ExecNext(s: System, t: seq<Label>, l: Label)
    ensures Exec(s, t + [l]) == Step(Exec(s, t), l)
  {
    assert (t + [l])[..|t|] == t;
  }
}
