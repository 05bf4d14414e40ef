/** What a sync leaves under each symbol, told key by key, and what it reports of a sale. */
module SyncContents {
  import opened Common
  import opened Domain
  import opened HoldingsSync

  /** The keys of one symbol. */
  datatype Slot = Slot(
    position: Option<Cached>, indexed: bool, hwm: Option<real>, exitOrder: Option<string>, locked: bool)

  function Find<T>(m: map<string, T>, symbol: string): Option<T> {
    if symbol in m then Some(m[symbol]) else None
  }

  function SlotOf(st: Store, symbol: string): Slot {
    Slot(Find(st.positions, symbol), symbol in st.index, Find(st.hwm, symbol), Find(st.exitOrder, symbol),
         symbol in st.locks)
  }

  /** A held symbol: the broker's quantity and price, opened when it was before or else now. A
      symbol neither indexed nor held before gets that price as its high-water mark. */
  function Held(was: Slot, h: Holding, now: int): Slot {
    var tracked := was.position.Some? && was.position.value.qty > 0.0;
    var since := match was.position case Some(c) => c.openedTs case None => now;
    Slot(Some(Cached(h.qty, h.avg, since)), true, if was.indexed || tracked then was.hwm else Some(h.avg),
         was.exitOrder, was.locked)
  }

  /** A vanished symbol: its position stays on file, everything else is gone. */
  function Vanished(was: Slot): Slot { Slot(was.position, false, None, None, false) }

  lemma {:induction false} AdoptSlot(st: Store, m: Market, existing: set<string>, h: Holding, now: int, symbol: string)
    requires symbol == h.symbol ==> (symbol in existing <==> symbol in st.index)
    ensures SlotOf(Adopt(st, m, existing, h, now), symbol)
        == if symbol == h.symbol && (!m.COIN? || symbol in existing) then Held(SlotOf(st, symbol), h, now)
           else SlotOf(st, symbol)
  {}

  lemma {:induction false} DropSlot(st: Store, s: string, day: int, symbol: string)
    ensures SlotOf(Drop(st, s, day), symbol)
        == if symbol == s && s !in st.pending then Vanished(SlotOf(st, symbol)) else SlotOf(st, symbol)
    ensures Drop(st, s, day).pending == st.pending
  {}

  lemma {:induction false} AdoptAllSlots(
      st: Store, m: Market, existing: set<string>, hs: seq<Holding>, now: int, symbol: string)
    requires forall k :: 0 <= k < |hs| ==> hs[k].symbol != symbol
    ensures SlotOf(AdoptAll(st, m, existing, hs, now), symbol) == SlotOf(st, symbol)
  {
    if hs == [] {
    } else {
      var front, h := hs[..|hs| - 1], hs[|hs| - 1];
      AdoptAllSlots(st, m, existing, front, now, symbol);
      AdoptSlot(AdoptAll(st, m, existing, front, now), m, existing, h, now, symbol);
      hide Adopt, SlotOf;
    }
  }

  lemma {:induction false} AdoptAllHeldSlot(st: Store, m: Market, hs: seq<Holding>, now: int, n: nat)
    requires n < |hs| && forall k :: 0 <= k < |hs| && hs[k].symbol == hs[n].symbol ==> k == n
    ensures var symbol := hs[n].symbol;
      SlotOf(AdoptAll(st, m, st.index, hs, now), symbol)
      == if !m.COIN? || symbol in st.index then Held(SlotOf(st, symbol), hs[n], now) else SlotOf(st, symbol)
  {
    var front, h, symbol := hs[..|hs| - 1], hs[|hs| - 1], hs[n].symbol;
    var mid := AdoptAll(st, m, st.index, front, now);
    if n == |hs| - 1 {
      AdoptAllSlots(st, m, st.index, front, now, symbol);
    } else {
      AdoptAllHeldSlot(st, m, front, now, n);
    }
    AdoptSlot(mid, m, st.index, h, now, symbol);
    hide Adopt, Held;
  }

  lemma {:induction false} DropAllSlots(st: Store, order: seq<string>, day: int, symbol: string)
    requires forall i, j :: 0 <= i < j < |order| ==> order[i] != order[j]
    ensures DropAll(st, order, day).pending == st.pending
    ensures SlotOf(DropAll(st, order, day), symbol)
        == if symbol in order && symbol !in st.pending then Vanished(SlotOf(st, symbol)) else SlotOf(st, symbol)
  {
    if order == [] {
    } else {
      var front, s := order[..|order| - 1], order[|order| - 1];
      DropAllSlots(st, front, day, symbol);
      DropSlot(DropAll(st, front, day), s, day, symbol);
      assert order == front + [s];
      hide Drop, SlotOf, Vanished;
    }
  }

  /** What a sync leaves under a symbol the broker does not report: a vanished one is cleared, unless
      a buy of it is on its way; any other is not touched. */
  lemma {:induction false} UnreportedAfterSync(
      st: Store, st': Store, m: Market, hs: seq<Holding>, now: int, order: seq<string>, day: int, symbol: string)
    requires SyncResult(st, st', m, hs, now, order, day) && symbol !in Symbols(hs)
    ensures SlotOf(st', symbol)
        == if symbol in st.index && symbol !in st.pending then Vanished(SlotOf(st, symbol)) else SlotOf(st, symbol)
  {
    var mid := AdoptAll(st, m, st.index, hs, now);
    forall k | 0 <= k < |hs| ensures hs[k].symbol != symbol {
      assert hs[k] in hs;
    }
    AdoptAllSlots(st, m, st.index, hs, now, symbol);
    AdoptAllIndex(st, m, st.index, hs, now);
    DropAllSlots(mid, order, day, symbol);
    hide AdoptAll, DropAll, SlotOf, Vanished;
  }

  /** And under one it reports once: what the broker says, or nothing new for a coin that the
      system did not buy. */
  lemma {:induction false} ReportedAfterSync(
      st: Store, st': Store, m: Market, hs: seq<Holding>, now: int, order: seq<string>, day: int, n: nat)
    requires SyncResult(st, st', m, hs, now, order, day)
    requires n < |hs| && forall k :: 0 <= k < |hs| && hs[k].symbol == hs[n].symbol ==> k == n
    ensures var symbol := hs[n].symbol;
      SlotOf(st', symbol)
      == if !m.COIN? || symbol in st.index then Held(SlotOf(st, symbol), hs[n], now) else SlotOf(st, symbol)
  {
    assert hs[n] in hs;
    AdoptAllHeldSlot(st, m, hs, now, n);
    DropAllSlots(AdoptAll(st, m, st.index, hs, now), order, day, hs[n].symbol);
    hide AdoptAll, DropAll, SlotOf, Vanished, Held;
  }

  /** A report that all of a symbol was sold: under the order that was to sell it and at that order's
      limit price when both can be read, else under the day and at the average price. */
  predicate IsSaleOf(p: Push, st: Store, symbol: string, day: int)
    requires symbol in st.positions
  {
    var average := st.positions[symbol].avg;
    && p.symbol == symbol && p.side == Sell && p.qty == st.positions[symbol].qty
    && match Find(st.exitOrder, symbol)
       case Some(o) =>
         if o in st.orders
         then p.exec == ByOrder(o) && p.price == (match st.orders[o] case Some(limit) => limit case None => average)
         else p.exec == SellDiscovered(symbol, day) && p.price == average
       case None => p.exec == SellDiscovered(symbol, day) && p.price == average
  }

  lemma {:induction false} SaleTells(
      st: Store, st': Store, m: Market, hs: seq<Holding>, now: int, order: seq<string>, day: int, symbol: string)
    requires SyncResult(st, st', m, hs, now, order, day)
    requires symbol in st.index && symbol !in Symbols(hs) && symbol !in st.pending && Tracked(st, symbol)
    requires forall s :: s in st.index - Symbols(hs) && s != symbol ==>
        SaleOf(st, s, day).0 != SaleOf(st, symbol, day).0
    requires SaleOf(st, symbol, day).0 !in st.pushed
    ensures exists p :: p in st'.queue && IsSaleOf(p, st, symbol, day)
  {
    ReportsAfterSync(st, st', m, hs, now, order, day, symbol);
    hide SyncResult, Reports;
    var (exec, price) := SaleOf(st, symbol, day);
    assert Push(exec, symbol, Sell, st.positions[symbol].qty, price) in st'.queue;
  }

  lemma {:induction false} DropAllKeepsQueue(st: Store, order: seq<string>, day: int, p: Push)
    requires p in st.queue
    ensures p in DropAll(st, order, day).queue
  {
    if order == [] {
    } else {
      DropAllKeepsQueue(st, order[..|order| - 1], day, p);
      hide SaleOf;
    }
  }

  /** The buy reported of a symbol that was neither indexed nor tracked: all that is held, at the
      broker's average price, under symbol and second. */
  lemma {:induction false} BuyTells(
      st: Store, st': Store, m: Market, hs: seq<Holding>, now: int, order: seq<string>, day: int, h: Holding)
    requires SyncResult(st, st', m, hs, now, order, day) && ReportedOnce(hs, h) && !m.COIN?
    requires h.symbol !in st.index && !Tracked(st, h.symbol) && BuyDiscovered(h.symbol, now) !in st.pushed
    ensures Push(BuyDiscovered(h.symbol, now), h.symbol, Buy, h.qty, h.avg) in st'.queue
  {
    AdoptAllHeld(st, m, hs, now, h);
    DropAllKeepsQueue(AdoptAll(st, m, st.index, hs, now), order, day, DiscoveredBuy(h, now));
    hide ReportedOnce, Reports, AdoptAll, DropAll;
  }

  // ----- No report twice ------------------------------------------------------

  function Pushes(queue: seq<Push>, exec: ExecId): nat {
    if queue == [] then 0 else (if queue[0].exec == exec then 1 else 0) + Pushes(queue[1..], exec)
  }

  /** Every id stands in the queue at most once, and only if it is on record as pushed. */
  ghost predicate OncePerId(st: Store) {
    forall exec :: Pushes(st.queue, exec) <= if exec in st.pushed then 1 else 0
  }

  lemma {:induction false} PushKeepsOnce(st: Store, p: Push)
    requires OncePerId(st)
    ensures var st' := PushFill(st, p); OncePerId(st') && st'.pushed == st.pushed + {p.exec}
  {
    var st' := PushFill(st, p);
    if p.exec !in st.pushed {
      assert st'.queue[0] == p && st'.queue[1..] == st.queue;
      forall exec ensures Pushes(st'.queue, exec) <= if exec in st'.pushed then 1 else 0 {
        assert Pushes(st.queue, exec) <= if exec in st.pushed then 1 else 0;
      }
    }
  }

  lemma {:induction false} AdoptKeepsOnce(st: Store, m: Market, existing: set<string>, h: Holding, now: int)
    requires OncePerId(st)
    ensures OncePerId(Adopt(st, m, existing, h, now)) && st.pushed <= Adopt(st, m, existing, h, now).pushed
  {
    PushKeepsOnce(st, DiscoveredBuy(h, now));
    hide PushFill, Pushes;
  }

  lemma {:induction false} DropKeepsOnce(st: Store, symbol: string, day: int)
    requires OncePerId(st)
    ensures OncePerId(Drop(st, symbol, day)) && st.pushed <= Drop(st, symbol, day).pushed
  {
    if Tracked(st, symbol) {
      var (exec, price) := SaleOf(st, symbol, day);
      PushKeepsOnce(st, Push(exec, symbol, Sell, st.positions[symbol].qty, price));
    }
    hide PushFill, Pushes, SaleOf;
  }

  lemma {:induction false} AdoptAllKeepsOnce(st: Store, m: Market, existing: set<string>, hs: seq<Holding>, now: int)
    requires OncePerId(st)
    ensures OncePerId(AdoptAll(st, m, existing, hs, now)) && st.pushed <= AdoptAll(st, m, existing, hs, now).pushed
  {
    if hs == [] {
    } else {
      AdoptAllKeepsOnce(st, m, existing, hs[..|hs| - 1], now);
      AdoptKeepsOnce(AdoptAll(st, m, existing, hs[..|hs| - 1], now), m, existing, hs[|hs| - 1], now);
      hide Adopt, OncePerId;
    }
  }

  lemma {:induction false} DropAllKeepsOnce(st: Store, order: seq<string>, day: int)
    requires OncePerId(st)
    ensures OncePerId(DropAll(st, order, day)) && st.pushed <= DropAll(st, order, day).pushed
  {
    if order == [] {
    } else {
      DropAllKeepsOnce(st, order[..|order| - 1], day);
      DropKeepsOnce(DropAll(st, order[..|order| - 1], day), order[|order| - 1], day);
      hide Drop, OncePerId;
    }
  }

  /** One sync after the other: no id is ever reported twice, and ids on record stay there. */
  lemma {:induction false} SyncReportsOnce(
      st: Store, st': Store, m: Market, hs: seq<Holding>, now: int, order: seq<string>, day: int)
    requires SyncResult(st, st', m, hs, now, order, day) && OncePerId(st)
    ensures OncePerId(st') && st.pushed <= st'.pushed
  {
    AdoptAllKeepsOnce(st, m, st.index, hs, now);
    DropAllKeepsOnce(AdoptAll(st, m, st.index, hs, now), order, day);
    hide AdoptAll, DropAll, OncePerId;
  }
}
