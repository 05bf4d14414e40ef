/** Reconciliation with the broker: cached positions are brought in line with the holdings
    the broker reports, and the differences are turned into fill events. One market at a time. */
module HoldingsSync {
  import opened Common
  import opened Domain
  import opened FillLedger

  datatype Cached = Cached(qty: real, avg: real, openedTs: int)

  datatype Holding = Holding(symbol: string, qty: real, avg: real)

  /** The deduplication id of a pushed fill: a discovered buy, the recorded exit order, or a
      discovered sell of a given day. */
  datatype ExecId =
    | BuyDiscovered(symbol: string, sec: int)
    | ByOrder(order: string)
    | SellDiscovered(symbol: string, day: int)

  datatype Push = Push(exec: ExecId, symbol: string, side: Side, qty: real, price: real)

  /** The keys of one market. `orders` maps recorded orders to their limit price, if readable. */
  datatype Store = Store(
    positions: map<string, Cached>, index: set<string>, queue: seq<Push>, pushed: set<ExecId>,
    hwm: map<string, real>, exitOrder: map<string, string>, orders: map<string, Option<real>>,
    locks: set<string>, pending: set<string>)

  // ----- One symbol -----------------------------------------------------------

  /** `_push_fill_event`: an id is pushed once. */
  function PushFill(st: Store, p: Push): Store {
    if p.exec in st.pushed then st else st.(pushed := st.pushed + {p.exec}, queue := [p] + st.queue)
  }

  predicate Tracked(st: Store, symbol: string) { symbol in st.positions && st.positions[symbol].qty > 0.0 }

  /** One reported holding. `existing` is the index as it was before the sync. */
  function Adopt(st: Store, m: Market, existing: set<string>, h: Holding, now: int): Store {
    if m.COIN? && h.symbol !in existing then st
    else
      var isNew := h.symbol !in existing && !Tracked(st, h.symbol);
      var buy := Push(BuyDiscovered(h.symbol, now), h.symbol, Buy, h.qty, h.avg);
      var found := if isNew then PushFill(st, buy).(hwm := st.hwm[h.symbol := h.avg]) else st;
      var since := if h.symbol in st.positions then st.positions[h.symbol].openedTs else now;
      found.(positions := st.positions[h.symbol := Cached(h.qty, h.avg, since)], index := st.index + {h.symbol})
  }

  function AdoptAll(st: Store, m: Market, existing: set<string>, hs: seq<Holding>, now: int): Store {
    if hs == [] then st else Adopt(AdoptAll(st, m, existing, hs[..|hs| - 1], now), m, existing, hs[|hs| - 1], now)
  }

  /** The id and price under which a vanished symbol's sale is reported. */
  function SaleOf(st: Store, symbol: string, day: int): (r: (ExecId, real))
    ensures !r.0.BuyDiscovered?
  {
    var avg := if symbol in st.positions then st.positions[symbol].avg else 0.0;
    if symbol in st.exitOrder && st.exitOrder[symbol] in st.orders then
      var order := st.exitOrder[symbol];
      (ByOrder(order), if st.orders[order].Some? then st.orders[order].value else avg)
    else (SellDiscovered(symbol, day), avg)
  }

  /** One indexed symbol the broker no longer reports. */
  function Drop(st: Store, symbol: string, day: int): Store {
    if symbol in st.pending then st
    else
      var (exec, price) := SaleOf(st, symbol, day);
      var sold :=
        if Tracked(st, symbol) then PushFill(st, Push(exec, symbol, Sell, st.positions[symbol].qty, price)) else st;
      sold.(index := st.index - {symbol}, hwm := st.hwm - {symbol}, exitOrder := st.exitOrder - {symbol},
          locks := st.locks - {symbol})
  }

  function DropAll(st: Store, order: seq<string>, day: int): Store {
    if order == [] then st else Drop(DropAll(st, order[..|order| - 1], day), order[|order| - 1], day)
  }

  function Symbols(hs: seq<Holding>): set<string> { set h | h in hs :: h.symbol }

  /** What a failed broker call falls back to: the cached open positions. */
  function CachedOpen(st: Store): set<string> { set s | s in st.index && Tracked(st, s) }

  // ----- The sync itself ------------------------------------------------------

  class PositionSync {
    const market: Market
    var positions: map<string, Cached>
    var index: set<string>
    var queue: seq<Push>
    var pushed: set<ExecId>
    var hwm: map<string, real>
    var exitOrder: map<string, string>
    var orders: map<string, Option<real>>
    var locks: set<string>
    var pending: set<string>

    function View(): Store
      reads this
    {
      Store(positions, index, queue, pushed, hwm, exitOrder, orders, locks, pending)
    }

    method PushFillEvent(p: Push) returns (isNew: bool)
      modifies this`pushed, this`queue
      ensures View() == PushFill(old(View()), p) && (isNew <==> p.exec !in old(pushed))
    {
      isNew := p.exec !in pushed;
      if isNew {
        pushed := pushed + {p.exec};
        queue := [p] + queue;
      }
    }

    method AdoptHolding(existing: set<string>, h: Holding, now: int)
      modifies this
      ensures View() == Adopt(old(View()), market, existing, h, now)
    {
      if market == COIN && h.symbol !in existing {
        return;
      }
      var since := if h.symbol in positions then positions[h.symbol].openedTs else now;
      if h.symbol !in existing && !(h.symbol in positions && positions[h.symbol].qty > 0.0) {
        var isNew := PushFillEvent(Push(BuyDiscovered(h.symbol, now), h.symbol, Buy, h.qty, h.avg));
        hwm := hwm[h.symbol := h.avg];
      }
      positions := positions[h.symbol := Cached(h.qty, h.avg, since)];
      index := index + {h.symbol};
    }

    method DropVanished(symbol: string, day: int)
      modifies this
      ensures View() == Drop(old(View()), symbol, day)
    {
      if symbol in pending {
        return;
      }
      var (exec, price) := SaleOf(View(), symbol, day);
      if symbol in positions && positions[symbol].qty > 0.0 {
        var isNew := PushFillEvent(Push(exec, symbol, Sell, positions[symbol].qty, price));
      }
      index := index - {symbol};
      hwm := hwm - {symbol};
      exitOrder := exitOrder - {symbol};
      locks := locks - {symbol};
    }

    /** The loop over the reported holdings; `open` collects what the exit rule will see. */
    method AdoptHoldings(existing: set<string>, hs: seq<Holding>, now: int) returns (open: set<string>)
      modifies this
      ensures View() == AdoptAll(old(View()), market, existing, hs, now)
      ensures open == if market.COIN? then Symbols(hs) * existing else Symbols(hs)
    {
      open := {};
      assert Symbols(hs[..0]) == {};
      hide Symbols, Adopt;
      for n := 0 to |hs|
        invariant View() == AdoptAll(old(View()), market, existing, hs[..n], now)
        invariant open == if market.COIN? then Symbols(hs[..n]) * existing else Symbols(hs[..n])
      {
        SymbolsUpTo(hs, n);
        AdoptHolding(existing, hs[n], now);
        if market != COIN || hs[n].symbol in existing {
          open := open + {hs[n].symbol};
        }
      }
      assert hs[..|hs|] == hs;
    }

    /** The loop over the symbols no longer reported, in the order Redis returned them. */
    method DropVanishedAll(gone: set<string>, day: int) returns (ghost order: seq<string>)
      modifies this
      ensures VisitsOnce(order, gone) && View() == DropAll(old(View()), order, day)
    {
      order := [];
      var todo := gone;
      while todo != {}
        invariant todo <= gone && VisitsOnce(order, gone - todo)
        invariant View() == DropAll(old(View()), order, day)
        decreases todo
      {
        var s :| s in todo;
        VisitOne(order, gone - todo, s);
        assert gone - (todo - {s}) == gone - todo + {s};
        assert (order + [s])[..|order|] == order;
        todo := todo - {s};
        DropVanished(s, day);
        order := order + [s];
        hide Drop, VisitsOnce;
      }
      assert gone - {} == gone;
    }

    /** `_sync_positions`. `None` stands for a failed broker call. */
    method Sync(holdings: Option<seq<Holding>>, now: int, day: int)
        returns (open: set<string>, ghost order: seq<string>)
      modifies this
      ensures holdings.None? ==> View() == old(View()) && open == CachedOpen(old(View()))
      ensures holdings.Some? ==> SyncResult(old(View()), View(), market, holdings.value, now, order, day)
      ensures holdings.Some? ==>
        open == if market.COIN? then Symbols(holdings.value) * old(index) else Symbols(holdings.value)
    {
      order := [];
      if holdings == None {
        open := set s | s in index && s in positions && positions[s].qty > 0.0;
        return;
      }
      var existing := index;
      open := AdoptHoldings(existing, holdings.value, now);
      order := DropVanishedAll(existing - Symbols(holdings.value), day);
    }
  }

  /** `order` visits every member of `s` once and nothing else. */
  ghost predicate VisitsOnce(order: seq<string>, s: set<string>) {
    && (forall x :: x in order <==> x in s)
    && (forall i, j :: 0 <= i < j < |order| ==> order[i] != order[j])
  }

  lemma {:induction false} VisitOne(order: seq<string>, s: set<string>, x: string)
    requires VisitsOnce(order, s) && x !in s
    ensures VisitsOnce(order + [x], s + {x})
  {}

  // ----- What a sync does to the index ----------------------------------------

  lemma {:induction false} SymbolsAppend(hs: seq<Holding>, h: Holding)
    ensures Symbols(hs + [h]) == Symbols(hs) + {h.symbol}
  {
    assert forall x :: x in hs + [h] <==> x in hs || x == h;
  }

  lemma {:induction false} SymbolsUpTo(hs: seq<Holding>, n: nat)
    requires n < |hs|
    ensures Symbols(hs[..n + 1]) == Symbols(hs[..n]) + {hs[n].symbol}
    ensures hs[..n + 1][..n] == hs[..n]
  {
    assert hs[..n + 1] == hs[..n] + [hs[n]];
    SymbolsAppend(hs[..n], hs[n]);
  }

  predicate SamePosition(a: Store, b: Store, s: string) {
    (s in a.positions <==> s in b.positions) && (s in a.positions ==> a.positions[s] == b.positions[s])
  }

  predicate Writes(c: Cached, h: Holding) { c.qty == h.qty && c.avg == h.avg }

  /** What one holding changes besides its report. */
  lemma {:induction false} AdoptOne(st: Store, m: Market, existing: set<string>, h: Holding, now: int)
    ensures var st', taken := Adopt(st, m, existing, h, now), !m.COIN? || h.symbol in existing;
      && st'.index == st.index + (if taken then {h.symbol} else {})
      && st'.pending == st.pending && st'.exitOrder == st.exitOrder && st'.orders == st.orders
      && (forall s :: s != h.symbol ==> SamePosition(st', st, s))
      && (taken ==> h.symbol in st'.positions && Writes(st'.positions[h.symbol], h))
  {}

  lemma {:induction false} AdoptAllIndex(st: Store, m: Market, existing: set<string>, hs: seq<Holding>, now: int)
    ensures var st' := AdoptAll(st, m, existing, hs, now);
      && st'.index == st.index + (if m.COIN? then Symbols(hs) * existing else Symbols(hs))
      && st'.pending == st.pending && st'.exitOrder == st.exitOrder && st'.orders == st.orders
      && (forall s :: s !in Symbols(hs) ==> SamePosition(st', st, s))
  {
    if hs == [] {
    } else {
      var front, h := hs[..|hs| - 1], hs[|hs| - 1];
      AdoptAllIndex(st, m, existing, front, now);
      AdoptOne(AdoptAll(st, m, existing, front, now), m, existing, h, now);
      assert hs == front + [h];
      SymbolsAppend(front, h);
      hide Symbols, Adopt;
    }
  }

  predicate SameExitOrder(a: Store, b: Store, s: string) {
    (s in a.exitOrder <==> s in b.exitOrder) && (s in a.exitOrder ==> a.exitOrder[s] == b.exitOrder[s])
  }

  lemma {:induction false} DropAllIndex(st: Store, order: seq<string>, day: int)
    ensures var st' := DropAll(st, order, day);
      && st'.pending == st.pending && st'.orders == st.orders && st'.positions == st.positions
      && (forall s :: s in st'.index <==> s in st.index && (s !in order || s in st.pending))
      && (forall s :: s !in order ==> SameExitOrder(st', st, s))
  {
    if order == [] {
    } else {
      var front, s := order[..|order| - 1], order[|order| - 1];
      DropAllIndex(st, front, day);
      assert order == front + [s];
    }
  }

  /** The outcome of a sync as the method's contract describes it. */
  ghost predicate SyncResult(
      st: Store, st': Store, m: Market, hs: seq<Holding>, now: int, order: seq<string>, day: int)
  {
    && VisitsOnce(order, st.index - Symbols(hs))
    && st' == DropAll(AdoptAll(st, m, st.index, hs, now), order, day)
  }

  /** After a successful sync the index holds exactly the reported symbols and the indexed
      ones with a buy still pending. For coins it never grows: a coin the system did not buy
      is not adopted. */
  lemma {:induction false} IndexAfterSync(st: Store, st': Store, m: Market, hs: seq<Holding>, now: int,
      order: seq<string>, day: int)
    requires SyncResult(st, st', m, hs, now, order, day)
    ensures !m.COIN? ==> st'.index == Symbols(hs) + (st.index - Symbols(hs)) * st.pending
    ensures m.COIN? ==> st'.index == Symbols(hs) * st.index + (st.index - Symbols(hs)) * st.pending
    ensures m.COIN? ==> st'.index <= st.index
  {
    AdoptAllIndex(st, m, st.index, hs, now);
    DropAllIndex(AdoptAll(st, m, st.index, hs, now), order, day);
  }

  // ----- What a sync reports --------------------------------------------------

  function Reports(queue: seq<Push>, symbol: string, side: Side): nat {
    if queue == [] then 0
    else (if queue[0].symbol == symbol && queue[0].side == side then 1 else 0) + Reports(queue[1..], symbol, side)
  }

  lemma {:induction false} ReportsPush(st: Store, p: Push, symbol: string, side: Side)
    ensures Reports(PushFill(st, p).queue, symbol, side)
         == Reports(st.queue, symbol, side)
             + (if p.exec !in st.pushed && p.symbol == symbol && p.side == side then 1 else 0)
  {
    assert ([p] + st.queue)[1..] == st.queue;
  }

  /** Adopting holdings reports no sale, and for coins nothing at all. */
  lemma {:induction false} AdoptAllReports(st: Store, m: Market, existing: set<string>, hs: seq<Holding>, now: int,
      symbol: string)
    ensures var st' := AdoptAll(st, m, existing, hs, now);
      && Reports(st'.queue, symbol, Sell) == Reports(st.queue, symbol, Sell)
      && (m.COIN? || symbol in existing ==> Reports(st'.queue, symbol, Buy) == Reports(st.queue, symbol, Buy))
      && (forall x :: x in st'.pushed - st.pushed ==> x.BuyDiscovered?)
      && st.pushed <= st'.pushed
  {
    if hs == [] {
    } else {
      var mid, h := AdoptAll(st, m, existing, hs[..|hs| - 1], now), hs[|hs| - 1];
      AdoptAllReports(st, m, existing, hs[..|hs| - 1], now, symbol);
      var p := Push(BuyDiscovered(h.symbol, now), h.symbol, Buy, h.qty, h.avg);
      ReportsPush(mid, p, symbol, Sell);
      ReportsPush(mid, p, symbol, Buy);
    }
  }

  /** Dropping symbols other than `symbol` reports nothing about it, and adds none but their
      own sale ids. */
  lemma {:induction false} DropAllOthers(st: Store, order: seq<string>, day: int, symbol: string)
    requires symbol !in order
    ensures var st' := DropAll(st, order, day);
      && Reports(st'.queue, symbol, Sell) == Reports(st.queue, symbol, Sell)
      && st.pushed <= st'.pushed
  {
    if order == [] {
    } else {
      var mid, s := DropAll(st, order[..|order| - 1], day), order[|order| - 1];
      DropAllOthers(st, order[..|order| - 1], day, symbol);
      assert s in order;
      if Tracked(mid, s) {
        var (exec, price) := SaleOf(mid, s, day);
        ReportsPush(mid, Push(exec, s, Sell, mid.positions[s].qty, price), symbol, Sell);
      }
    }
  }

  lemma {:induction false} DropAllBuysNothing(st: Store, order: seq<string>, day: int, symbol: string)
    ensures Reports(DropAll(st, order, day).queue, symbol, Buy) == Reports(st.queue, symbol, Buy)
  {
    if order == [] {
    } else {
      var mid, s := DropAll(st, order[..|order| - 1], day), order[|order| - 1];
      DropAllBuysNothing(st, order[..|order| - 1], day, symbol);
      if Tracked(mid, s) {
        var (exec, price) := SaleOf(mid, s, day);
        ReportsPush(mid, Push(exec, s, Sell, mid.positions[s].qty, price), symbol, Buy);
      }
    }
  }

  /** The ids pushed while dropping are the sale ids of the symbols dropped. */
  lemma {:induction false} DropAllIds(st: Store, order: seq<string>, day: int)
    requires forall i, j :: 0 <= i < j < |order| ==> order[i] != order[j]
    ensures forall x :: x in DropAll(st, order, day).pushed ==>
      x in st.pushed || exists s :: s in order && x == SaleOf(st, s, day).0
  {
    if order == [] {
    } else {
      var front, s := order[..|order| - 1], order[|order| - 1];
      DropAllIds(st, front, day);
      DropAllIndex(st, front, day);
      assert s !in front;
      assert SaleOf(DropAll(st, front, day), s, day) == SaleOf(st, s, day);
      assert forall u :: u in front ==> u in order;
      assert s in order;
      hide SaleOf;
    }
  }

  /** A vanished symbol with a cached quantity is reported sold exactly once, for the whole
      quantity, when its sale id is fresh and no other vanished symbol shares it; it is not
      reported again when the id was used before. */
  lemma {:induction false} DropReports(st: Store, order: seq<string>, day: int, symbol: string)
    requires forall i, j :: 0 <= i < j < |order| ==> order[i] != order[j]
    requires symbol in order && symbol !in st.pending && Tracked(st, symbol)
    requires forall s :: s in order && s != symbol ==> SaleOf(st, s, day).0 != SaleOf(st, symbol, day).0
    ensures var st', exec := DropAll(st, order, day), SaleOf(st, symbol, day).0;
      && Reports(st'.queue, symbol, Sell) == Reports(st.queue, symbol, Sell) + (if exec in st.pushed then 0 else 1)
      && (exec !in st.pushed ==> Push(exec, symbol, Sell, st.positions[symbol].qty,
          SaleOf(st, symbol, day).1) in st'.queue)
  {
    var front, s := order[..|order| - 1], order[|order| - 1];
    var mid := DropAll(st, front, day);
    DropAllIndex(st, front, day);
    if s == symbol {
      DropAllOthers(st, front, day, symbol);
      DropAllIds(st, front, day);
      assert SaleOf(mid, symbol, day) == SaleOf(st, symbol, day);
      var (exec, price) := SaleOf(st, symbol, day);
      assert exec in mid.pushed <==> exec in st.pushed;
      ReportsPush(mid, Push(exec, symbol, Sell, st.positions[symbol].qty, price), symbol, Sell);
    } else {
      DropReports(st, front, day, symbol);
      var (exec, price) := SaleOf(mid, s, day);
      if Tracked(mid, s) {
        ReportsPush(mid, Push(exec, s, Sell, mid.positions[s].qty, price), symbol, Sell);
      }
    }
  }

  /** The reports of one sync. Held symbols are never reported sold; nothing is reported
      bought for coins or for symbols already indexed; and each vanished symbol with a
      cached quantity and no pending buy is reported sold as `DropReports` says. */
  lemma {:induction false} ReportsAfterSync(
      st: Store, st': Store, m: Market, hs: seq<Holding>, now: int, order: seq<string>, day: int, symbol: string)
    requires SyncResult(st, st', m, hs, now, order, day)
    ensures symbol in Symbols(hs) || symbol !in st.index ==>
        Reports(st'.queue, symbol, Sell) == Reports(st.queue, symbol, Sell)
    ensures m.COIN? || symbol in st.index ==> Reports(st'.queue, symbol, Buy) == Reports(st.queue, symbol, Buy)
    ensures
      && symbol in st.index && symbol !in Symbols(hs) && symbol !in st.pending && Tracked(st, symbol)
      && (forall s :: s in st.index - Symbols(hs) && s != symbol ==> SaleOf(st, s, day).0 != SaleOf(st, symbol, day).0)
      ==>
      var exec := SaleOf(st, symbol, day).0;
      && Reports(st'.queue, symbol, Sell) == Reports(st.queue, symbol, Sell) + (if exec in st.pushed then 0 else 1)
      && (exec !in st.pushed ==> Push(exec, symbol, Sell, st.positions[symbol].qty,
          SaleOf(st, symbol, day).1) in st'.queue)
  {
    var mid := AdoptAll(st, m, st.index, hs, now);
    AdoptAllReports(st, m, st.index, hs, now, symbol);
    AdoptAllIndex(st, m, st.index, hs, now);
    DropAllBuysNothing(mid, order, day, symbol);
    if symbol !in order {
      DropAllOthers(mid, order, day, symbol);
    } else {
      assert forall s :: s in order ==> SaleOf(mid, s, day) == SaleOf(st, s, day);
      if symbol !in st.pending && Tracked(st, symbol)
         && forall s :: s in order && s != symbol ==> SaleOf(st, s, day).0 != SaleOf(st, symbol, day).0 {
        assert SaleOf(st, symbol, day).0 in mid.pushed <==> SaleOf(st, symbol, day).0 in st.pushed;
        DropReports(mid, order, day, symbol);
      }
    }
  }

  // ----- A discovered buy and the ledger --------------------------------------

  /** The holdings the sync takes over, and those it also reports as bought. */
  predicate Adopts(st: Store, m: Market, h: Holding) { !m.COIN? || h.symbol in st.index }

  predicate Discovers(st: Store, m: Market, h: Holding, now: int) {
    && !m.COIN? && h.symbol !in st.index && !Tracked(st, h.symbol)
    && BuyDiscovered(h.symbol, now) !in st.pushed
  }

  function DiscoveredBuy(h: Holding, now: int): Push { Push(BuyDiscovered(h.symbol, now), h.symbol, Buy, h.qty, h.avg) }

  ghost predicate ReportedOnce(hs: seq<Holding>, h: Holding) {
    exists n :: 0 <= n < |hs| && hs[n] == h && forall k :: 0 <= k < |hs| && hs[k].symbol == h.symbol ==> k == n
  }

  lemma {:induction false} AdoptAllOthers(st: Store, m: Market, existing: set<string>, hs: seq<Holding>, now: int,
      symbol: string)
    requires forall k :: 0 <= k < |hs| ==> hs[k].symbol != symbol
    ensures var st' := AdoptAll(st, m, existing, hs, now);
      && Reports(st'.queue, symbol, Buy) == Reports(st.queue, symbol, Buy)
      && (BuyDiscovered(symbol, now) in st'.pushed <==> BuyDiscovered(symbol, now) in st.pushed)
      && (Tracked(st', symbol) <==> Tracked(st, symbol))
  {
    if hs == [] {
    } else {
      var front, h := hs[..|hs| - 1], hs[|hs| - 1];
      AdoptAllOthers(st, m, existing, front, now, symbol);
      ReportsPush(AdoptAll(st, m, existing, front, now), DiscoveredBuy(h, now), symbol, Buy);
    }
  }

  /** A holding written as reported, and queued as a buy exactly when it is discovered. */
  predicate TakenOver(st: Store, st': Store, m: Market, h: Holding, now: int) {
    && h.symbol in st'.positions && st'.positions[h.symbol].qty == h.qty && st'.positions[h.symbol].avg == h.avg
    && Reports(st'.queue, h.symbol, Buy)
        == Reports(st.queue, h.symbol, Buy) + (if Discovers(st, m, h, now) then 1 else 0)
    && (Discovers(st, m, h, now) ==> DiscoveredBuy(h, now) in st'.queue)
  }

  lemma {:induction false} AdoptTakesOver(st: Store, mid: Store, m: Market, h: Holding, now: int)
    requires Adopts(st, m, h) && Reports(mid.queue, h.symbol, Buy) == Reports(st.queue, h.symbol, Buy)
    requires BuyDiscovered(h.symbol, now) in mid.pushed <==> BuyDiscovered(h.symbol, now) in st.pushed
    requires Tracked(mid, h.symbol) <==> Tracked(st, h.symbol)
    ensures TakenOver(st, Adopt(mid, m, st.index, h, now), m, h, now)
  {
    ReportsPush(mid, DiscoveredBuy(h, now), h.symbol, Buy);
    AdoptOne(mid, m, st.index, h, now);
    hide Reports;
  }

  lemma {:induction false} OthersKeepTakenOver(st: Store, mid: Store, m: Market, h: Holding, other: Holding, now: int)
    requires TakenOver(st, mid, m, h, now) && other.symbol != h.symbol
    ensures TakenOver(st, Adopt(mid, m, st.index, other, now), m, h, now)
  {
    ReportsPush(mid, DiscoveredBuy(other, now), h.symbol, Buy);
    AdoptOne(mid, m, st.index, other, now);
    hide Reports;
  }

  /** A holding reported once is taken over, whatever else is reported with it. */
  lemma {:induction false} AdoptAllHeld(st: Store, m: Market, hs: seq<Holding>, now: int, h: Holding)
    requires ReportedOnce(hs, h) && Adopts(st, m, h)
    ensures TakenOver(st, AdoptAll(st, m, st.index, hs, now), m, h, now)
  {
    var n :| 0 <= n < |hs| && hs[n] == h && forall k :: 0 <= k < |hs| && hs[k].symbol == h.symbol ==> k == n;
    AdoptUpTo(st, m, hs, now, n, |hs|);
    assert hs[..|hs|] == hs;
    hide TakenOver, Adopts;
  }

  lemma {:induction false} AdoptUpTo(st: Store, m: Market, hs: seq<Holding>, now: int, n: nat, upTo: nat)
    requires n < upTo <= |hs| && Adopts(st, m, hs[n])
    requires forall k :: 0 <= k < |hs| && hs[k].symbol == hs[n].symbol ==> k == n
    ensures TakenOver(st, AdoptAll(st, m, st.index, hs[..upTo], now), m, hs[n], now)
    decreases upTo
  {
    var front, last := hs[..upTo - 1], hs[upTo - 1];
    var mid := AdoptAll(st, m, st.index, front, now);
    assert hs[..upTo][..upTo - 1] == front;
    if n == upTo - 1 {
      AdoptAllOthers(st, m, st.index, front, now, last.symbol);
      AdoptTakesOver(st, mid, m, last, now);
    } else {
      AdoptUpTo(st, m, hs, now, n, upTo - 1);
      OthersKeepTakenOver(st, mid, m, hs[n], last, now);
    }
    hide Adopt, TakenOver, Adopts, Reports;
  }

  /** The fill event made from a push. */
  predicate Carries(f: Fill, m: Market, p: Push) {
    f.market == m && f.symbol == p.symbol && f.side == p.side && f.qty == p.qty && f.price == p.price && f.fee == 0.0
  }

  /** The ledger once the buys that a sync queued for a holding are booked. */
  ghost function AfterBuys(l: Ledger, queued: int, f: Fill, fault: Fault): Ledger {
    if queued > 0 then ApplyFill(l, f, fault).0 else l
  }

  /** The removals of a sync touch neither the position nor the buys of a held symbol. */
  lemma {:induction false} SyncTakesOver(
      st: Store, st': Store, m: Market, hs: seq<Holding>, now: int, order: seq<string>, day: int, h: Holding)
    requires SyncResult(st, st', m, hs, now, order, day) && ReportedOnce(hs, h) && Adopts(st, m, h)
    ensures h.symbol in st'.positions && st'.positions[h.symbol].qty == h.qty
    ensures Reports(st'.queue, h.symbol, Buy)
        == Reports(st.queue, h.symbol, Buy) + (if Discovers(st, m, h, now) then 1 else 0)
  {
    var mid := AdoptAll(st, m, st.index, hs, now);
    AdoptAllHeld(st, m, hs, now, h);
    DropAllIndex(mid, order, day);
    DropAllBuysNothing(mid, order, day, h.symbol);
    hide ReportedOnce, Reports, AdoptAll, DropAll, Discovers, Adopts;
  }

  lemma {:induction false} BookedBuyAdds(l: Ledger, f: Fill, fault: Fault)
    requires f.side.Buy? && f.qty > 0.0 && PositionAt(l.portfolio, KeyOf(f)).qty > 0.0
    requires TradeKeyOf(f) !in l.journal.dedupe && !fault.AtRead? && !fault.AfterRecord?
    ensures PositionAt(ApplyFill(l, f, fault).0.portfolio, KeyOf(f)).qty
        == PositionAt(l.portfolio, KeyOf(f)).qty + f.qty
  {
    BookedFill(l, f, fault);
    hide ApplyFill;
  }

  /** A sync writes the position and also queues the discovered buy. Booked by the position
      engine on top of what the sync wrote, the quantity on file is the broker's exactly when
      no buy was queued: for coins, for symbols indexed or tracked before, and for ids pushed
      before. Else it is twice the broker's. All three brokers report positive quantities only. */
  lemma {:induction false} BookedQtyIsHeldIff(
      st: Store, st': Store, m: Market, hs: seq<Holding>, now: int, order: seq<string>, day: int, h: Holding,
      l: Ledger, f: Fill, fault: Fault)
    requires SyncResult(st, st', m, hs, now, order, day) && ReportedOnce(hs, h) && Adopts(st, m, h) && h.qty > 0.0
    requires h.symbol in st'.positions && PositionAt(l.portfolio, Key(m, h.symbol)).qty == st'.positions[h.symbol].qty
    requires Carries(f, m, DiscoveredBuy(h, now)) && TradeKeyOf(f) !in l.journal.dedupe && !fault.AtRead?
        && !fault.AfterRecord?
    ensures var queued := Reports(st'.queue, h.symbol, Buy) - Reports(st.queue, h.symbol, Buy);
      var booked := PositionAt(AfterBuys(l, queued, f, fault).portfolio, Key(m, h.symbol)).qty;
      && (booked == h.qty <==>
            m.COIN? || h.symbol in st.index || Tracked(st, h.symbol) || BuyDiscovered(h.symbol, now) in st.pushed)
      && (booked == h.qty || booked == 2.0 * h.qty)
  {
    SyncTakesOver(st, st', m, hs, now, order, day, h);
    hide SyncResult, ReportedOnce, Reports, ApplyFill;
    BookedBuyAdds(l, f, fault);
  }
}
