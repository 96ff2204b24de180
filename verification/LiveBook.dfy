/** The live engine's book: the position mirror, the entry theses, and the two jobs that keep them in step with the broker. */
module LiveBook {
  import opened Wrappers
  import opened Arithmetic
  import opened Domain
  import opened Keys
  import opened Sizing
  import opened Rules
  import opened Decision
  import opened Broker

  datatype MirrorRow = MirrorRow(shares: real, avgEntryPrice: real)

  /** The entry snapshot and trail state a position's sell rules are measured against. */
  datatype Thesis = Thesis(
    entryPrice: real, atrAtEntry: real, stopPrice: real, targetPrice: real, entryComposite: Option<real>,
    entryFundamentals: Option<real>, tookPartial: bool, highestClose: real, reversalDays: nat)

  /** Broker-truth shares combined with a thesis. */
  function StateOf(s: Symbol, shares: real, t: Thesis): Position {
    Position(s, t.entryPrice, shares, t.atrAtEntry, t.stopPrice, t.targetPrice, t.entryComposite, t.entryFundamentals,
             t.tookPartial, t.highestClose, t.reversalDays)
  }

  datatype LocalBook = LocalBook(mirror: map<Symbol, MirrorRow>, theses: map<Symbol, Thesis>)

  /** How the database stores a share count: any function of the broker's quantity. */
  type Storage = real -> real

  // ---------- reconciliation ----------

  function Holdings(held: map<Symbol, BrokerPosition>, known: set<Symbol>, stored: Storage): map<Symbol, MirrorRow> {
    map s | s in held && s in known :: MirrorRow(stored(held[s].qty), held[s].avgEntryPrice)
  }

  /** Upsert every known holding, then drop the local rows, and their theses, that the broker no longer reports. */
  function Reconciled(local: LocalBook, held: map<Symbol, BrokerPosition>, known: set<Symbol>,
                      stored: Storage): LocalBook {
    var synced := local.mirror + Holdings(held, known, stored);
    var gone := synced.Keys - held.Keys;
    LocalBook(synced - gone, local.theses - gone)
  }

  // ---------- adoption ----------

  predicate Priceable(data: Market, s: Symbol) {
    s in data && data[s].atr.Some? && data[s].atr.value > 0.0
  }

  function AdoptedThesis(row: MirrorRow, d: CycleData): Thesis
    requires d.atr.Some?
  {
    var entry := row.avgEntryPrice;
    Thesis(entry, d.atr.value, entry - STOP_ATR_MULT * d.atr.value, entry + TARGET_ATR_MULT * d.atr.value, None, None,
           false, Max(entry, d.bar.close), 0)
  }

  /** Give every mirrored symbol without a thesis one, when there is an ATR to price its stop from. */
  function Adopted(local: LocalBook, data: Market): LocalBook {
    local.(theses := local.theses +
      map s | s in local.mirror && s !in local.theses && Priceable(data, s) :: AdoptedThesis(local.mirror[s], data[s]))
  }

  class LocalStore {
    var mirror: map<Symbol, MirrorRow>
    var theses: map<Symbol, Thesis>

    function Contents(): LocalBook
      reads this
    {
      LocalBook(mirror, theses)
    }

    constructor ()
      ensures Contents() == LocalBook(map[], map[])
    {
      mirror, theses := map[], map[];
    }
  }

  datatype ReconcileReport = ReconcileReport(synced: nat, removed: seq<Symbol>)

  function HoldingsAmong(names: seq<Symbol>, held: map<Symbol, BrokerPosition>, known: set<Symbol>,
                         stored: Storage): map<Symbol, MirrorRow> {
    map s | s in names && s in held && s in known :: MirrorRow(stored(held[s].qty), held[s].avgEntryPrice)
  }

  lemma HoldingsNext(names: seq<Symbol>, s: Symbol, held: map<Symbol, BrokerPosition>, known: set<Symbol>,
                     stored: Storage)
    requires s in held && s !in names
    ensures var before, after := HoldingsAmong(names, held, known, stored), HoldingsAmong(names + [s], held, known, stored);
      if s in known
      then s !in before && after == before[s := MirrorRow(stored(held[s].qty), held[s].avgEntryPrice)] && |after| == |before| + 1
      else after == before
  {
    var before, after := HoldingsAmong(names, held, known, stored), HoldingsAmong(names + [s], held, known, stored);
    if s in known {
      assert after == before[s := MirrorRow(stored(held[s].qty), held[s].avgEntryPrice)];
    } else {
      assert after == before;
    }
  }

  lemma HoldingsAll(names: seq<Symbol>, held: map<Symbol, BrokerPosition>, known: set<Symbol>, stored: Storage)
    requires Enumerates(names, held.Keys)
    ensures HoldingsAmong([], held, known, stored) == map[]
    ensures HoldingsAmong(names, held, known, stored) == Holdings(held, known, stored)
  {}

  /** First loop: upsert every known holding. `listed` is the order in which the broker lists its positions. */
  method UpsertHoldings(store: LocalStore, held: map<Symbol, BrokerPosition>, listed: seq<Symbol>, known: set<Symbol>,
                        stored: Storage)
    returns (synced: nat)
    requires Enumerates(listed, held.Keys)
    modifies store
    ensures store.mirror == old(store.mirror) + Holdings(held, known, stored) && store.theses == old(store.theses)
    ensures synced == |Holdings(held, known, stored)|
  {
    hide HoldingsAmong, Holdings, NoDup;
    ghost var start := store.mirror;
    synced := 0;
    HoldingsAll(listed, held, known, stored);
    assert start + map[] == start;
    for i := 0 to |listed|
      invariant store.theses == old(store.theses)
      invariant store.mirror == start + HoldingsAmong(listed[..i], held, known, stored)
      invariant synced == |HoldingsAmong(listed[..i], held, known, stored)|
    {
      var sym := listed[i];
      Prefix(listed, i);
      HoldingsNext(listed[..i], sym, held, known, stored);
      if sym in known {
        ghost var part := HoldingsAmong(listed[..i], held, known, stored);
        store.mirror := store.mirror[sym := MirrorRow(stored(held[sym].qty), held[sym].avgEntryPrice)];
        AddPut(start, part, sym, MirrorRow(stored(held[sym].qty), held[sym].avgEntryPrice));
        synced := synced + 1;
      }
    }
    assert listed[..|listed|] == listed;
  }

  /** Second loop: drop the rows, and their theses, that the broker no longer reports. */
  method DropUnreported(store: LocalStore, reported: set<Symbol>) returns (removed: seq<Symbol>)
    modifies store
    ensures store.mirror == old(store.mirror) - (old(store.mirror.Keys) - reported)
    ensures store.theses == old(store.theses) - (old(store.mirror.Keys) - reported)
    ensures forall s :: s in removed <==> s in old(store.mirror) && s !in reported
  {
    var rows := store.mirror.Keys;
    ghost var all, gone := rows, {};
    removed := [];
    while rows != {}
      invariant rows <= all && gone == (all - rows) - reported
      invariant store.mirror == old(store.mirror) - gone && store.theses == old(store.theses) - gone
      invariant forall s :: s in removed <==> s in gone
      decreases |rows|
    {
      var sym :| sym in rows;
      rows := rows - {sym};
      if sym !in reported {
        MinusOne(old(store.mirror), gone, sym);
        MinusOne(old(store.theses), gone, sym);
        store.mirror := store.mirror - {sym};
        store.theses := store.theses - {sym};
        removed := removed + [sym];
        gone := gone + {sym};
      }
    }
    assert gone == all - reported;
  }

  method ReconcilePositions(store: LocalStore, held: map<Symbol, BrokerPosition>, listed: seq<Symbol>,
                            known: set<Symbol>,
                            stored: Storage)
    returns (report: ReconcileReport)
    requires Enumerates(listed, held.Keys)
    modifies store
    ensures store.Contents() == Reconciled(old(store.Contents()), held, known, stored)
    ensures report.synced == |Holdings(held, known, stored)|
    ensures forall s :: s in report.removed <==>
              (s in old(store.mirror) || s in Holdings(held, known, stored)) && s !in held
  {
    var synced := UpsertHoldings(store, held, listed, known, stored);
    var removed := DropUnreported(store, held.Keys);
    report := ReconcileReport(synced, removed);
  }

  datatype AdoptionReport = AdoptionReport(adopted: seq<Symbol>, unmanageable: seq<Symbol>)

  /** The adopted theses after looking at the mirror rows in `rows`. */
  function AdoptedAmong(local: LocalBook, data: Market, rows: seq<Symbol>): map<Symbol, Thesis> {
    map s | s in rows && s in local.mirror && s !in local.theses && Priceable(data, s) :: AdoptedThesis(local.mirror[s], data[s])
  }

  lemma AdoptedNext(local: LocalBook, data: Market, rows: seq<Symbol>, s: Symbol)
    requires s in local.mirror && s !in rows
    ensures var before, after := AdoptedAmong(local, data, rows), AdoptedAmong(local, data, rows + [s]);
      after == if s !in local.theses && Priceable(data, s) then before[s := AdoptedThesis(local.mirror[s], data[s])] else before
  {}

  /** `rows` is the order in which the database returns the mirror rows. */
  method AdoptOrphanPositions(store: LocalStore, data: Market, rows: seq<Symbol>) returns (report: AdoptionReport)
    requires Enumerates(rows, store.mirror.Keys)
    modifies store
    ensures store.Contents() == Adopted(old(store.Contents()), data)
    ensures forall s :: s in report.adopted <==> s in store.theses && s !in old(store.theses)
    ensures forall s :: s in report.unmanageable <==> s in store.mirror && s !in store.theses
  {
    hide AdoptedAmong, AdoptedThesis, NoDup;
    ghost var before := store.Contents();
    var theses := store.theses.Keys;
    report := AdoptionReport([], []);
    AdoptedEnds(before, data, rows);
    for i := 0 to |rows|
      invariant store.mirror == before.mirror
      invariant store.theses == before.theses + AdoptedAmong(before, data, rows[..i])
      invariant forall s :: s in report.adopted <==> s in rows[..i] && s !in theses && Priceable(data, s)
      invariant forall s :: s in report.unmanageable <==> s in rows[..i] && s !in theses && !Priceable(data, s)
    {
      var sym := rows[i];
      Prefix(rows, i);
      AdoptedNext(before, data, rows[..i], sym);
      if sym !in theses {
        if !Priceable(data, sym) {
          report := report.(unmanageable := report.unmanageable + [sym]);
        } else {
          AddPut(before.theses, AdoptedAmong(before, data, rows[..i]), sym, AdoptedThesis(store.mirror[sym], data[sym]));
          store.theses := store.theses[sym := AdoptedThesis(store.mirror[sym], data[sym])];
          report := report.(adopted := report.adopted + [sym]);
        }
      }
    }
    assert rows[..|rows|] == rows;
  }

  lemma AdoptedEnds(local: LocalBook, data: Market, rows: seq<Symbol>)
    requires Enumerates(rows, local.mirror.Keys)
    ensures local.theses + AdoptedAmong(local, data, []) == local.theses
    ensures Adopted(local, data) == local.(theses := local.theses + AdoptedAmong(local, data, rows))
    ensures forall s :: s in AdoptedAmong(local, data, rows) <==> s in rows && s !in local.theses && Priceable(data, s)
  {
    assert AdoptedAmong(local, data, rows)
        == map s | s in local.mirror && s !in local.theses && Priceable(data, s) :: AdoptedThesis(local.mirror[s], data[s]);
  }

  // ---------- what they guarantee ----------

  /** The mirror equals the broker's known holdings exactly when no reported symbol is mirrored without a company. */
  lemma ReconcileMirrorsBroker(local: LocalBook, held: map<Symbol, BrokerPosition>, known: set<Symbol>, stored: Storage)
    ensures Reconciled(local, held, known, stored).mirror == Holdings(held, known, stored)
            <==> forall s :: s in local.mirror && s in held ==> s in known
    ensures Reconciled(local, held, known, stored).mirror.Keys <= held.Keys
  {
    var after, target := Reconciled(local, held, known, stored).mirror, Holdings(held, known, stored);
    if forall s :: s in local.mirror && s in held ==> s in known {
      assert after == target;
    } else {
      var s :| s in local.mirror && s in held && s !in known;
      assert s in after && s !in target;
    }
  }

  /** What reconciliation leaves of each symbol: a holding of a known company is mirrored as the broker reports it, one of an
      unknown company keeps whatever row it had, and a row the broker does not report goes, with its thesis. */
  lemma ReconciledMeans(local: LocalBook, held: map<Symbol, BrokerPosition>, known: set<Symbol>, stored: Storage, s: Symbol)
    ensures var after := Reconciled(local, held, known, stored);
      && (s in held && s in known ==>
            s in after.mirror && after.mirror[s] == MirrorRow(stored(held[s].qty), held[s].avgEntryPrice))
      && (s in held && s !in known ==>
            (s in after.mirror <==> s in local.mirror) && (s in local.mirror ==> after.mirror[s] == local.mirror[s]))
      && (s !in held ==> s !in after.mirror)
      && (s in after.theses <==> s in local.theses && (s in held || s !in local.mirror))
      && (s in after.theses ==> after.theses[s] == local.theses[s])
  {}

  /** Reconciling again changes nothing. */
  lemma ReconcileIsIdempotent(local: LocalBook, held: map<Symbol, BrokerPosition>, known: set<Symbol>, stored: Storage)
    ensures var once := Reconciled(local, held, known, stored); Reconciled(once, held, known, stored) == once
  {
    var once := Reconciled(local, held, known, stored);
    assert Reconciled(once, held, known, stored).mirror == once.mirror;
    assert Reconciled(once, held, known, stored).theses == once.theses;
  }

  /** After adoption every mirrored symbol that can be priced has a thesis; existing theses are untouched and nothing else appears. */
  lemma AdoptionCoversMirror(local: LocalBook, data: Market)
    ensures var after := Adopted(local, data);
      && after.mirror == local.mirror
      && (forall s :: s in local.theses ==> s in after.theses && after.theses[s] == local.theses[s])
      && (forall s :: s in local.mirror && s in data && data[s].atr.Some? && data[s].atr.value > 0.0 ==> s in after.theses)
      && (forall s :: s in after.theses && s !in local.theses ==>
            s in local.mirror && s in data && data[s].atr.Some? && data[s].atr.value > 0.0 && after.theses[s] == AdoptedThesis(local.mirror[s], data[s]))
      && Adopted(after, data) == after
  {
    var after := Adopted(local, data);
    assert Adopted(after, data).theses == after.theses;
  }

  /** An adopted thesis is measured from the broker's average entry: its stop 2.5 ATR below, its target 3 ATR above, the high-water
      mark at the higher of entry and close, nothing trimmed and nothing known about the entry's scores. */
  lemma AdoptedThesisIsSane(row: MirrorRow, d: CycleData)
    requires d.atr.Some? && d.atr.value > 0.0
    ensures var t := AdoptedThesis(row, d); var entry := row.avgEntryPrice;
      && t.entryPrice == entry && t.atrAtEntry == d.atr.value
      && t.stopPrice == entry - 2.5 * d.atr.value < entry < t.targetPrice == entry + 3.0 * d.atr.value
      && t.highestClose == (if d.bar.close > entry then d.bar.close else entry)
      && !t.tookPartial && t.reversalDays == 0 && t.entryFundamentals.None? && t.entryComposite.None?
  {}

  /** What the cycle that adopts a position does with it, since the plan is made right after: the invented stop sells all of it
      exactly when the session already traded 2.5 ATR below the broker's average entry, the invented target trims it exactly when
      the session stayed above that and reached 3 ATR above, and no trend exit fires on the first day. */
  lemma AdoptedSellsAtOnceIff(s: Symbol, shares: real, row: MirrorRow, d: CycleData)
    requires d.atr.Some? && d.atr.value > 0.0
    ensures var a := SellFor(StateOf(s, shares, AdoptedThesis(row, d)), d);
      var stop, target := row.avgEntryPrice - 2.5 * d.atr.value, row.avgEntryPrice + 3.0 * d.atr.value;
      && (a.reason in {StopGap, StopLoss} <==> d.bar.low <= stop)
      && (a.reason == TargetPartial <==> d.bar.low > stop && d.bar.high >= target)
      && a.reason != TrendReversal
      && (a.fraction == 1.0 <==> a.reason in {StopGap, StopLoss, FundamentalsDeteriorated})
  {}

  // ---------- companies come and go ----------

  /** The live book and the companies in the registry. */
  datatype Registered = Registered(local: LocalBook, known: set<Symbol>)

  /** What changes them: the two jobs, and companies being listed or deleted. Deleting a company deletes its mirror row with it;
      theses carry no reference to the company and stay. */
  datatype Change =
    | Reconcile(held: map<Symbol, BrokerPosition>, stored: Storage)
    | Adopt(data: Market)
    | ListCompany(symbol: Symbol)
    | DeleteCompany(symbol: Symbol)

  function Changed(r: Registered, c: Change): Registered {
    match c
    case Reconcile(held, stored) => r.(local := Reconciled(r.local, held, r.known, stored))
    case Adopt(data) => r.(local := Adopted(r.local, data))
    case ListCompany(s) => r.(known := r.known + {s})
    case DeleteCompany(s) => Registered(r.local.(mirror := r.local.mirror - {s}), r.known - {s})
  }

  function AfterChanges(r: Registered, cs: seq<Change>): Registered {
    if cs == [] then r else Changed(AfterChanges(r, cs[..|cs| - 1]), cs[|cs| - 1])
  }

  /** Every mirrored symbol keeps its company, through any sequence of jobs, listings and deletions. */
  lemma {:induction false} MirrorStaysRegistered(r: Registered, cs: seq<Change>)
    requires r.local.mirror.Keys <= r.known
    ensures AfterChanges(r, cs).local.mirror.Keys <= AfterChanges(r, cs).known
  {
    if cs != [] {
      MirrorStaysRegistered(r, cs[..|cs| - 1]);
    }
  }

  /** So whatever happened before, a reconciliation makes the mirror exactly the broker's holdings of known companies. */
  lemma ReconciledMirrorIsHoldings(r: Registered, cs: seq<Change>, held: map<Symbol, BrokerPosition>, stored: Storage)
    requires r.local.mirror.Keys <= r.known
    ensures var before := AfterChanges(r, cs);
      Changed(before, Reconcile(held, stored)).local.mirror == Holdings(held, before.known, stored)
  {
    hide AfterChanges, Holdings, Reconciled;
    MirrorStaysRegistered(r, cs);
    var before := AfterChanges(r, cs);
    ReconcileMirrorsBroker(before.local, held, before.known, stored);
  }
}
