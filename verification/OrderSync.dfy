/** Polling open orders, and what the ledger keeps under any interleaving of placement, broker progress and polling. */
module OrderSync {
  import opened Wrappers
  import opened Domain
  import opened Keys
  import opened Rules
  import opened Broker
  import opened OrderLedger

  datatype Report = Report(checked: nat, advanced: nat, filled: nat, missing: seq<Symbol>)

  predicate HasExecution(l: Ledger, id: ClientOrderId) {
    exists i :: 0 <= i < |l.executions| && l.executions[i].order == id
  }

  predicate IsOpen(l: Ledger, id: ClientOrderId) {
    id in l.orders && !Terminal(l.orders[id].status)
  }

  /** Bring one open order up to date with the broker's answer. */
  function SyncOne(l: Ledger, id: ClientOrderId, remote: BrokerOrder, day: Day): Ledger {
    if !IsOpen(l, id) then l
    else
      var row := l.orders[id];
      Ledger(
        if remote.status != row.status
        then l.orders[id := row.(status := remote.status, rejectReason := remote.rejectReason)] else l.orders,
        l.executions + if HasFill(remote) && !HasExecution(l, id) then [ExecutionOf(id, row.symbol, remote, day)] else [])
  }

  function SyncAll(l: Ledger, ids: seq<ClientOrderId>, replies: map<ClientOrderId, BrokerOrder>, day: Day): Ledger {
    if ids == [] then l
    else
      var n := |ids| - 1;
      var before := SyncAll(l, ids[..n], replies, day);
      if ids[n] in replies then SyncOne(before, ids[n], replies[ids[n]], day) else before
  }

  /** The symbols of the orders the broker knows nothing about, in order. */
  function Unanswered(l: Ledger, ids: seq<ClientOrderId>, replies: map<ClientOrderId, BrokerOrder>): seq<Symbol> {
    if ids == [] then []
    else
      var id := ids[|ids| - 1];
      Unanswered(l, ids[..|ids| - 1], replies) + if id in l.orders && id !in replies then [l.orders[id].symbol] else []
  }

  /** How many orders the broker reports in another status. */
  function StatusChanges(l: Ledger, ids: seq<ClientOrderId>, replies: map<ClientOrderId, BrokerOrder>): nat {
    if ids == [] then 0
    else
      var id := ids[|ids| - 1];
      StatusChanges(l, ids[..|ids| - 1], replies) +
      if id in l.orders && id in replies && replies[id].status != l.orders[id].status then 1 else 0
  }

  /** What one answer does to the ledger. An order that is filled, canceled, rejected or expired is left alone. Any other takes the
      reported status, with the reject reason when it is new, and nothing else of its row changes; a fill, full or partial, with
      an average price is recorded when the order has no execution yet. */
  lemma SyncMeans(l: Ledger, id: ClientOrderId, remote: BrokerOrder, day: Day)
    ensures var m := SyncOne(l, id, remote, day); var n := |l.executions|;
      var filled := remote.status in {Filled, PartiallyFilled} && remote.filledAvgPrice.Some? && remote.filledAvgPrice.value != 0.0;
      if id !in l.orders || l.orders[id].status in {Filled, Canceled, Rejected, Expired} then m == l
      else
        && m.orders.Keys == l.orders.Keys && (forall o :: o in l.orders && o != id ==> m.orders[o] == l.orders[o])
        && m.orders[id].status == remote.status
        && m.orders[id].rejectReason
           == (if remote.status != l.orders[id].status then remote.rejectReason else l.orders[id].rejectReason)
        && m.orders[id] == l.orders[id].(status := m.orders[id].status, rejectReason := m.orders[id].rejectReason)
        && (if filled && forall i :: 0 <= i < n ==> l.executions[i].order != id
            then m.executions == l.executions + [ExecutionRow(id, remote.brokerId, l.orders[id].symbol, remote.filledQty,
                                                              remote.filledAvgPrice.value, day)]
            else m.executions == l.executions)
  {}

  lemma PollNothing(l: Ledger, replies: map<ClientOrderId, BrokerOrder>, day: Day)
    ensures SyncAll(l, [], replies, day) == l && Unanswered(l, [], replies) == [] && StatusChanges(l, [], replies) == 0
  {}

  lemma PollNext(l: Ledger, ids: seq<ClientOrderId>, id: ClientOrderId, replies: map<ClientOrderId, BrokerOrder>, day: Day)
    requires id in l.orders
    ensures var before := SyncAll(l, ids, replies, day);
      SyncAll(l, ids + [id], replies, day) == if id in replies then SyncOne(before, id, replies[id], day) else before
    ensures Unanswered(l, ids + [id], replies)
            == Unanswered(l, ids, replies) + if id !in replies then [l.orders[id].symbol] else []
    ensures StatusChanges(l, ids + [id], replies)
            == StatusChanges(l, ids, replies) + if id in replies && replies[id].status != l.orders[id].status then 1 else 0
  {
    hide SyncOne;
    assert (ids + [id])[..|ids|] == ids;
  }

  ghost function Missing(ids: seq<ClientOrderId>, replies: map<ClientOrderId, BrokerOrder>): set<nat> {
    set k: nat | k < |ids| && ids[k] !in replies
  }

  ghost function Advanced(l: Ledger, ids: seq<ClientOrderId>, replies: map<ClientOrderId, BrokerOrder>): set<nat> {
    set k: nat | k < |ids| && ids[k] in l.orders && ids[k] in replies && replies[ids[k]].status != l.orders[ids[k]].status
  }

  /** What a poll reports: as many advanced orders as have another status at the broker, and one missing entry for each order the
      broker does not know, by symbol. */
  lemma {:induction false} ReportCounts(l: Ledger, ids: seq<ClientOrderId>, replies: map<ClientOrderId, BrokerOrder>, s: Symbol)
    requires forall k :: 0 <= k < |ids| ==> ids[k] in l.orders
    ensures StatusChanges(l, ids, replies) == |Advanced(l, ids, replies)|
    ensures |Unanswered(l, ids, replies)| == |Missing(ids, replies)|
    ensures s in Unanswered(l, ids, replies) <==> exists k :: 0 <= k < |ids| && ids[k] !in replies && l.orders[ids[k]].symbol == s
  {
    if ids == [] {
      assert Missing(ids, replies) == {} && Advanced(l, ids, replies) == {};
    } else {
      var n := |ids| - 1;
      ReportCounts(l, ids[..n], replies, s);
      assert ids == ids[..n] + [ids[n]];
      var more, moved := ids[n] !in replies, ids[n] in replies && replies[ids[n]].status != l.orders[ids[n]].status;
      assert forall k: nat :: k in Missing(ids, replies) <==> k in Missing(ids[..n], replies) || (k == n && more);
      OneMore(Missing(ids[..n], replies), Missing(ids, replies), n, more);
      assert forall k: nat :: k in Advanced(l, ids, replies) <==> k in Advanced(l, ids[..n], replies) || (k == n && moved);
      OneMore(Advanced(l, ids[..n], replies), Advanced(l, ids, replies), n, moved);
    }
  }

  /** The poller: `open` lists the open orders as the database returns them, `replies` what the broker answers for each. */
  method SyncOpenOrders(store: OrderStore, open: seq<ClientOrderId>, replies: map<ClientOrderId, BrokerOrder>, day: Day)
    returns (report: Report)
    requires NoDup(open) && forall id :: id in open <==> IsOpen(store.Rows(), id)
    modifies store
    ensures store.Rows() == SyncAll(old(store.Rows()), open, replies, day)
    ensures report.checked == |open|
    ensures report.filled == |store.executions| - |old(store.executions)|
    ensures report.missing == Unanswered(old(store.Rows()), open, replies)
    ensures report.advanced == StatusChanges(old(store.Rows()), open, replies)
  {
    hide HasExecution, HasFill, Terminal, SyncAll, Unanswered, StatusChanges;
    ghost var l := store.Rows();
    PollNothing(l, replies, day);
    report := Report(0, 0, 0, []);
    assert forall k :: 0 <= k < |open| ==> open[k] in open && IsOpen(l, open[k]);
    for i := 0 to |open|
      invariant store.Rows() == SyncAll(l, open[..i], replies, day)
      invariant forall k :: i <= k < |open| ==> open[k] in store.orders && store.orders[open[k]] == l.orders[open[k]]
      invariant report.checked == i && report.filled == |store.executions| - |l.executions|
      invariant report.missing == Unanswered(l, open[..i], replies)
      invariant report.advanced == StatusChanges(l, open[..i], replies)
    {
      var id := open[i];
      var row := store.orders[id];
      assert open[..i + 1] == open[..i] + [id];
      PollNext(l, open[..i], id, replies, day);
      report := report.(checked := report.checked + 1);
      if id !in replies {
        report := report.(missing := report.missing + [row.symbol]);
      } else {
        var remote := replies[id];
        var known := HasExecution(store.Rows(), id);
        if remote.status != row.status {
          store.orders := store.orders[id := row.(status := remote.status, rejectReason := remote.rejectReason)];
          report := report.(advanced := report.advanced + 1);
        }
        if HasFill(remote) && !known {
          store.executions := store.executions + [ExecutionOf(id, row.symbol, remote, day)];
          report := report.(filled := report.filled + 1);
        }
      }
    }
    assert open[..|open|] == open;
  }

  // ---------- any interleaving ----------

  /** A placement answered by the broker, or a poll; between them the broker may progress as it likes. */
  datatype Event =
    | Placed(req: Request, reply: BrokerOrder)
    | Polled(ids: seq<ClientOrderId>, replies: map<ClientOrderId, BrokerOrder>, day: Day)

  function Apply(l: Ledger, e: Event): Ledger {
    match e
    case Placed(req, reply) => if req.id in l.orders then l else RecordPlaced(l, req, reply)
    case Polled(ids, replies, day) => SyncAll(l, ids, replies, day)
  }

  function Played(events: seq<Event>): Ledger {
    if events == [] then Ledger(map[], []) else Apply(Played(events[..|events| - 1]), events[|events| - 1])
  }

  /** At most one execution row per order, and only for known orders. */
  ghost predicate OneEach(l: Ledger) {
    && (forall i :: 0 <= i < |l.executions| ==> l.executions[i].order in l.orders)
    && (forall i, j :: 0 <= i < j < |l.executions| ==> l.executions[i].order != l.executions[j].order)
  }

  ghost predicate FillsRecorded(l: Ledger) {
    forall id :: id in l.orders && l.orders[id].status == Filled ==> HasExecution(l, id)
  }

  /** Rows are only added, never changed; a finished order keeps its row and gets no further execution. */
  ghost predicate Continues(l: Ledger, m: Ledger) {
    && l.executions <= m.executions
    && (forall id :: id in l.orders ==> id in m.orders)
    && (forall id :: id in l.orders && Terminal(l.orders[id].status) ==>
          m.orders[id] == l.orders[id] && forall i :: |l.executions| <= i < |m.executions| ==> m.executions[i].order != id)
  }

  ghost predicate PricedReply(o: BrokerOrder) {
    o.status == Filled ==> HasFill(o)
  }

  ghost predicate PricedEvent(e: Event) {
    match e
    case Placed(_, reply) => PricedReply(reply)
    case Polled(_, replies, _) => forall id :: id in replies ==> PricedReply(replies[id])
  }

  lemma SyncOneContinues(l: Ledger, id: ClientOrderId, remote: BrokerOrder, day: Day)
    requires OneEach(l)
    ensures var m := SyncOne(l, id, remote, day); OneEach(m) && Continues(l, m)
  {
    hide HasFill, Terminal;
    if IsOpen(l, id) && HasFill(remote) && !HasExecution(l, id) {
      var m := SyncOne(l, id, remote, day);
      assert m.executions[..|l.executions|] == l.executions && m.executions[|l.executions|].order == id;
    }
  }

  lemma SyncOneRecords(l: Ledger, id: ClientOrderId, remote: BrokerOrder, day: Day)
    requires FillsRecorded(l) && PricedReply(remote)
    ensures FillsRecorded(SyncOne(l, id, remote, day))
  {
    hide HasFill, Terminal;
    var m := SyncOne(l, id, remote, day);
    forall other | HasExecution(l, other) ensures HasExecution(m, other) {
      var i :| 0 <= i < |l.executions| && l.executions[i].order == other;
      assert m.executions[i].order == other;
    }
    if IsOpen(l, id) && HasFill(remote) && !HasExecution(l, id) {
      assert m.executions[|l.executions|].order == id;
    }
  }

  lemma SyncOneSound(l: Ledger, id: ClientOrderId, remote: BrokerOrder, day: Day)
    requires OneEach(l)
    ensures var m := SyncOne(l, id, remote, day);
      && OneEach(m) && Continues(l, m)
      && (FillsRecorded(l) && PricedReply(remote) ==> FillsRecorded(m))
  {
    hide SyncOne, OneEach, Continues, FillsRecorded, PricedReply;
    SyncOneContinues(l, id, remote, day);
    if FillsRecorded(l) && PricedReply(remote) {
      SyncOneRecords(l, id, remote, day);
    }
  }

  lemma ContinuesTrans(k: Ledger, l: Ledger, m: Ledger)
    requires Continues(k, l) && Continues(l, m)
    ensures Continues(k, m)
  {
    forall id | id in k.orders && Terminal(k.orders[id].status)
      ensures forall i :: |k.executions| <= i < |m.executions| ==> m.executions[i].order != id
    {
      assert forall i :: |k.executions| <= i < |l.executions| ==> m.executions[i] == l.executions[i];
    }
  }

  lemma {:induction false} SyncAllSound(l: Ledger, ids: seq<ClientOrderId>, replies: map<ClientOrderId, BrokerOrder>,
                                        day: Day)
    requires OneEach(l)
    ensures var m := SyncAll(l, ids, replies, day);
      && OneEach(m) && Continues(l, m)
      && (FillsRecorded(l) && (forall id :: id in replies ==> PricedReply(replies[id])) ==> FillsRecorded(m))
  {
    if ids != [] {
      var n := |ids| - 1;
      var before := SyncAll(l, ids[..n], replies, day);
      SyncAllSound(l, ids[..n], replies, day);
      if ids[n] in replies {
        hide SyncOne, OneEach, Continues, FillsRecorded, PricedReply;
        SyncOneSound(before, ids[n], replies[ids[n]], day);
        ContinuesTrans(l, before, SyncOne(before, ids[n], replies[ids[n]], day));
      }
    }
  }

  lemma PlacedSound(l: Ledger, req: Request, reply: BrokerOrder)
    requires OneEach(l) && req.id !in l.orders
    ensures var m := RecordPlaced(l, req, reply);
      && OneEach(m) && Continues(l, m)
      && (FillsRecorded(l) && PricedReply(reply) ==> FillsRecorded(m))
  {
    var m := RecordPlaced(l, req, reply);
    forall other | HasExecution(l, other) ensures HasExecution(m, other) {
      var i :| 0 <= i < |l.executions| && l.executions[i].order == other;
      assert m.executions[i].order == other;
    }
    if HasFill(reply) {
      assert m.executions[|l.executions|].order == req.id;
    }
  }

  lemma ApplySound(l: Ledger, e: Event)
    requires OneEach(l)
    ensures OneEach(Apply(l, e)) && Continues(l, Apply(l, e))
    ensures FillsRecorded(l) && PricedEvent(e) ==> FillsRecorded(Apply(l, e))
  {
    match e {
      case Placed(req, reply) =>
        if req.id !in l.orders { PlacedSound(l, req, reply); }
      case Polled(ids, replies, day) =>
        SyncAllSound(l, ids, replies, day);
    }
  }

  /** Under every interleaving an order has at most one execution row, and one recorded as filled has exactly one,
      provided the broker reports a price with every fill. */
  lemma {:induction false} LedgerIsSound(events: seq<Event>)
    ensures OneEach(Played(events))
    ensures (forall i :: 0 <= i < |events| ==> PricedEvent(events[i])) ==> FillsRecorded(Played(events))
  {
    if events != [] {
      hide Apply, OneEach, FillsRecorded, PricedEvent;
      LedgerIsSound(events[..|events| - 1]);
      ApplySound(Played(events[..|events| - 1]), events[|events| - 1]);
    }
  }

  /** Execution rows are never changed afterwards and finished orders are never touched again. */
  lemma {:induction false} LedgerOnlyGrows(events: seq<Event>, n: nat)
    requires n <= |events|
    ensures Continues(Played(events[..n]), Played(events))
  {
    var m := |events|;
    if n == m {
      assert events[..n] == events;
    } else {
      hide Apply, OneEach, Continues;
      assert events[..m - 1][..n] == events[..n];
      LedgerOnlyGrows(events[..m - 1], n);
      LedgerIsSound(events[..m - 1]);
      ApplySound(Played(events[..m - 1]), events[m - 1]);
      ContinuesTrans(Played(events[..n]), Played(events[..m - 1]), Played(events));
    }
  }

  // ---------- which fill the ledger remembers ----------

  /** The broker's answers about one order that the ledger looked at, in order. */
  function Answers(events: seq<Event>, id: ClientOrderId): seq<BrokerOrder> {
    if events == [] then []
    else
      var n := |events| - 1;
      Answers(events[..n], id) + AnswerTo(Played(events[..n]), events[n], id)
  }

  /** What one event tells a ledger about the order. */
  function AnswerTo(l: Ledger, e: Event, id: ClientOrderId): (answer: seq<BrokerOrder>)
    ensures |answer| <= 1
  {
    match e
    case Placed(req, reply) => if req.id == id && id !in l.orders then [reply] else []
    case Polled(ids, replies, _) => if id in ids && IsOpen(l, id) && id in replies then [replies[id]] else []
  }

  function FirstFill(answers: seq<BrokerOrder>): Option<BrokerOrder> {
    if answers == [] then None
    else
      var n := |answers| - 1;
      var earlier := FirstFill(answers[..n]);
      if earlier.Some? then earlier else if HasFill(answers[n]) then Some(answers[n]) else None
  }

  /** The execution rows of one order. */
  function RowsOf(executions: seq<ExecutionRow>, id: ClientOrderId): seq<ExecutionRow> {
    if executions == [] then []
    else
      var n := |executions| - 1;
      RowsOf(executions[..n], id) + (if executions[n].order == id then [executions[n]] else [])
  }

  /** The rows of an order are exactly what its first reported fill says. */
  ghost predicate Remembers(l: Ledger, id: ClientOrderId, fill: Option<BrokerOrder>) {
    var rows := RowsOf(l.executions, id);
    if fill.None? then rows == []
    else |rows| == 1 && HasFill(fill.value)
         && rows[0].fillQty == fill.value.filledQty && rows[0].fillPrice == fill.value.filledAvgPrice.value
  }

  lemma RowsAppend(executions: seq<ExecutionRow>, e: ExecutionRow, id: ClientOrderId)
    ensures RowsOf(executions + [e], id) == RowsOf(executions, id) + (if e.order == id then [e] else [])
  {
    assert (executions + [e])[..|executions|] == executions;
  }

  lemma {:induction false} RowsExist(l: Ledger, id: ClientOrderId)
    ensures HasExecution(l, id) <==> RowsOf(l.executions, id) != []
    decreases |l.executions|
  {
    if l.executions != [] {
      var n := |l.executions| - 1;
      RowsExist(l.(executions := l.executions[..n]), id);
      if HasExecution(l, id) && l.executions[n].order != id {
        var i :| 0 <= i < |l.executions| && l.executions[i].order == id;
        assert l.executions[..n][i].order == id;
      }
    }
  }

  lemma SyncOneRemembers(l: Ledger, at: ClientOrderId, remote: BrokerOrder, day: Day, id: ClientOrderId,
                         fill: Option<BrokerOrder>)
    ensures var m := SyncOne(l, at, remote, day);
      && (at != id ==> RowsOf(m.executions, id) == RowsOf(l.executions, id) && (IsOpen(m, id) <==> IsOpen(l, id)))
      && (at == id && IsOpen(l, id) && Remembers(l, id, fill) ==>
            Remembers(m, id, if fill.Some? then fill else if HasFill(remote) then Some(remote) else None))
  {
    hide HasExecution, RowsOf, HasFill, Terminal;
    RowsExist(l, at);
    if IsOpen(l, at) && HasFill(remote) && !HasExecution(l, at) {
      RowsAppend(l.executions, ExecutionOf(at, l.orders[at].symbol, remote, day), id);
    } else {
      assert l.executions + [] == l.executions;
    }
  }

  lemma {:induction false} SyncAllRemembers(l: Ledger, ids: seq<ClientOrderId>,
                                            replies: map<ClientOrderId, BrokerOrder>, day: Day,
                                            id: ClientOrderId, fill: Option<BrokerOrder>)
    requires NoDup(ids) && Remembers(l, id, fill)
    ensures var m := SyncAll(l, ids, replies, day);
      if id in ids && IsOpen(l, id) && id in replies
      then Remembers(m, id, if fill.Some? then fill else if HasFill(replies[id]) then Some(replies[id]) else None)
      else Remembers(m, id, fill) && (id !in ids ==> (IsOpen(m, id) <==> IsOpen(l, id)))
  {
    if ids != [] {
      hide SyncOne, HasFill;
      var n := |ids| - 1;
      assert ids == ids[..n] + [ids[n]] && ids[n] !in ids[..n];
      SyncAllRemembers(l, ids[..n], replies, day, id, fill);
      if ids[n] in replies {
        SyncOneRemembers(SyncAll(l, ids[..n], replies, day), ids[n], replies[ids[n]], day, id, fill);
        ClosedUntouched(SyncAll(l, ids[..n], replies, day), ids[n], replies[ids[n]], day);
      }
    }
  }

  lemma ClosedUntouched(l: Ledger, at: ClientOrderId, remote: BrokerOrder, day: Day)
    ensures !IsOpen(l, at) ==> SyncOne(l, at, remote, day) == l
  {}

  lemma AnswerFill(answers: seq<BrokerOrder>, more: seq<BrokerOrder>)
    requires |more| <= 1
    ensures FirstFill(answers + more) ==
      if FirstFill(answers).Some? || more == [] then FirstFill(answers)
      else if HasFill(more[0]) then Some(more[0]) else None
  {
    if more == [] {
      assert answers + more == answers;
    } else {
      assert (answers + more)[..|answers|] == answers;
    }
  }

  /** The ledger remembers exactly the first fill it was shown of an order, under every interleaving. */
  lemma {:induction false} LedgerRemembersFirstFill(events: seq<Event>, id: ClientOrderId)
    requires forall i :: 0 <= i < |events| && events[i].Polled? ==> NoDup(events[i].ids)
    ensures Remembers(Played(events), id, FirstFill(Answers(events, id)))
  {
    if events != [] {
      var n := |events| - 1;
      var l, past := Played(events[..n]), Answers(events[..n], id);
      LedgerRemembersFirstFill(events[..n], id);
      AnswerFill(past, AnswerTo(l, events[n], id));
      match events[n] {
        case Placed(req, reply) =>
          LedgerIsSound(events[..n]);
          PlacedRemembers(l, req, reply, id, FirstFill(past));
        case Polled(ids, replies, day) =>
          SyncAllRemembers(l, ids, replies, day, id, FirstFill(past));
      }
    }
  }

  lemma PlacedRemembers(l: Ledger, req: Request, reply: BrokerOrder, id: ClientOrderId, fill: Option<BrokerOrder>)
    requires OneEach(l) && Remembers(l, id, fill)
    ensures var m := Apply(l, Placed(req, reply));
      if req.id == id && id !in l.orders
      then fill.None? && Remembers(m, id, if HasFill(reply) then Some(reply) else None)
      else Remembers(m, id, fill)
  {
    RowsExist(l, req.id);
    if req.id !in l.orders {
      assert !HasExecution(l, req.id);
      if HasFill(reply) {
        RowsAppend(l.executions, ExecutionOf(req.id, req.id.symbol, reply, req.day), id);
      } else {
        assert l.executions + [] == l.executions;
      }
    }
  }

  /** The quantity the ledger has on record for an order; zero when it has no execution row. */
  function RecordedQuantity(l: Ledger, id: ClientOrderId): real {
    var rows := RowsOf(l.executions, id);
    if rows == [] then 0.0 else rows[0].fillQty
  }

  /** Whether the first fill the ledger was shown, or the lack of one, already told the last reported quantity. */
  predicate FirstFillIsLast(answers: seq<BrokerOrder>)
    requires answers != []
  {
    var last := answers[|answers| - 1].filledQty;
    match FirstFill(answers)
    case None => last == 0.0
    case Some(o) => o.filledQty == last
  }

  /** The recorded quantity of an order is the last one the broker reported if and only if the first answer in a fill status
      already carried that quantity, or there was no such answer and nothing was filled. Both ways to fail are real: a partial
      fill is never corrected, and a fill first reported with a cancellation is never recorded. */
  lemma RecordedQuantityIsFinal(events: seq<Event>, id: ClientOrderId)
    requires forall i :: 0 <= i < |events| && events[i].Polled? ==> NoDup(events[i].ids)
    requires Answers(events, id) != []
    ensures var answers := Answers(events, id);
      && |RowsOf(Played(events).executions, id)| == (if FirstFill(answers).Some? then 1 else 0)
      && (RecordedQuantity(Played(events), id) == answers[|answers| - 1].filledQty <==> FirstFillIsLast(answers))
  {
    hide Played, Answers, FirstFill, RowsOf, HasFill;
    LedgerRemembersFirstFill(events, id);
  }

  /** Concretely: an order seen partially filled with 3 shares and later filled with 10 stays recorded as 3. */
  lemma PartialFillIsNeverCorrected() returns (events: seq<Event>, id: ClientOrderId)
    ensures id in Played(events).orders && Played(events).orders[id].status == Filled
    ensures Answers(events, id) != [] && Answers(events, id)[|Answers(events, id)| - 1].filledQty == 10.0
    ensures RowsOf(Played(events).executions, id) != [] && RowsOf(Played(events).executions, id)[0].fillQty == 3.0
  {
    hide Played, Answers, RowsOf, SyncAll, HasExecution;
    id := ClientOrderId(0, "X", Buy);
    var req := Request(id, 10.0, Entry, 0);
    var partial := BrokerOrder(id, Some(1), "X", Buy, 10.0, PartiallyFilled, 3.0, Some(100.0), None);
    var full := partial.(status := Filled, filledQty := 10.0);
    var placed, polled := Placed(req, partial), Polled([id], map[id := full], 0);
    events := [] + [placed] + [polled];
    var l := RecordPlaced(Ledger(map[], []), req, partial);
    var row := ExecutionOf(id, "X", partial, 0);
    assert l.executions == [] + [row];
    NothingYet(id);
    EventAppend([], placed, id);
    EventAppend([] + [placed], polled, id);
    assert HasExecution(l, id) by { OneExecution(l, row, id); }
    SyncTwice(l, id, full);
    RowsAppend([], row, id);
  }

  /** Concretely: an order accepted, then canceled after filling 3 shares, ends with no execution row at all. */
  lemma CanceledFillIsNeverRecorded() returns (events: seq<Event>, id: ClientOrderId)
    ensures id in Played(events).orders && Terminal(Played(events).orders[id].status)
    ensures Answers(events, id) != [] && Answers(events, id)[|Answers(events, id)| - 1].filledQty == 3.0
    ensures RowsOf(Played(events).executions, id) == []
  {
    hide Played, Answers, RowsOf, SyncAll, HasExecution;
    id := ClientOrderId(0, "X", Buy);
    var req := Request(id, 10.0, Entry, 0);
    var accepted := BrokerOrder(id, Some(1), "X", Buy, 10.0, Accepted, 0.0, None, None);
    var canceled := accepted.(status := Canceled, filledQty := 3.0, filledAvgPrice := Some(100.0));
    var placed, polled := Placed(req, accepted), Polled([id], map[id := canceled], 0);
    events := [] + [placed] + [polled];
    var l := RecordPlaced(Ledger(map[], []), req, accepted);
    NothingYet(id);
    EventAppend([], placed, id);
    EventAppend([] + [placed], polled, id);
    assert l.executions == [];
    SyncWithoutFill(l, id, canceled);
  }

  lemma SyncWithoutFill(l: Ledger, id: ClientOrderId, remote: BrokerOrder)
    requires IsOpen(l, id) && !HasFill(remote)
    ensures var m := SyncAll(l, [id], map[id := remote], 0);
      m.executions == l.executions && id in m.orders && m.orders[id].status == remote.status
  {
    assert [id][..0] == [];
    assert SyncAll(l, [], map[id := remote], 0) == l;
    assert l.executions + [] == l.executions;
  }

  lemma OneExecution(l: Ledger, row: ExecutionRow, id: ClientOrderId)
    requires l.executions == [] + [row] && row.order == id
    ensures HasExecution(l, id)
  {
    assert l.executions[0].order == id;
  }

  lemma NothingYet(id: ClientOrderId)
    ensures Played([]) == Ledger(map[], []) && Answers([], id) == [] && RowsOf([], id) == []
  {}

  lemma EventAppend(events: seq<Event>, e: Event, id: ClientOrderId)
    ensures Played(events + [e]) == Apply(Played(events), e)
    ensures Answers(events + [e], id) == Answers(events, id) + AnswerTo(Played(events), e, id)
  {
    hide Apply;
    assert (events + [e])[..|events|] == events;
  }

  lemma SyncTwice(l: Ledger, id: ClientOrderId, remote: BrokerOrder)
    requires IsOpen(l, id) && HasExecution(l, id)
    ensures var m := SyncAll(l, [id], map[id := remote], 0);
      m.executions == l.executions && id in m.orders && m.orders[id].status == remote.status
  {
    assert [id][..0] == [];
    assert SyncAll(l, [], map[id := remote], 0) == l;
  }
}
