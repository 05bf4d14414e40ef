/** The daily performance report: it rebuilds a day's realized PnL from the trade index and
    writes it back over the running total. */
module Reporter {
  import opened Common
  import opened Domain
  import opened FillLedger
  import opened Repository
  import opened Strategy

  // ----- Max drawdown ---------------------------------------------------------

  /** How far the running total fell between two points, counted from before the first trade. */
  function Fall(pnls: seq<real>, i: nat, j: nat): real
    requires i <= |pnls| && j <= |pnls|
  {
    Sum(pnls[..i]) - Sum(pnls[..j])
  }

  ghost predicate IsMaxDrawdown(pnls: seq<real>, dd: real) {
    && (forall i, j :: 0 <= i <= j <= |pnls| ==> Fall(pnls, i, j) <= dd)
    && (exists i, j :: 0 <= i <= j <= |pnls| && Fall(pnls, i, j) == dd)
  }

  /** The one-pass loop finds the greatest fall between any two points. */
  method MaxDrawdown(pnls: seq<real>) returns (maxDd: real)
    ensures IsMaxDrawdown(pnls, maxDd)
  {
    var cumulative, peak := 0.0, 0.0;
    maxDd := 0.0;
    ghost var top, from, to := 0, 0, 0;
    for n := 0 to |pnls|
      invariant cumulative == Sum(pnls[..n])
      invariant 0 <= top <= n && peak == Sum(pnls[..top])
      invariant forall i :: 0 <= i <= n ==> Sum(pnls[..i]) <= peak
      invariant 0 <= from <= to <= n && Fall(pnls, from, to) == maxDd
      invariant forall i, j :: 0 <= i <= j <= n ==> Fall(pnls, i, j) <= maxDd
    {
      assert pnls[..n + 1][..n] == pnls[..n];
      cumulative := cumulative + pnls[n];
      if cumulative > peak {
        peak := cumulative;
        top := n + 1;
      }
      var dd := peak - cumulative;
      if dd > maxDd {
        maxDd := dd;
        from, to := top, n + 1;
      }
    }
  }

  // ----- A day's sells --------------------------------------------------------

  /** Midnight KST at the start of day number `day` since the epoch. */
  function DayStart(day: int): int { day * DAY_MS - KST_OFFSET_MS }

  /** The window of a day ends where the next begins: at midnight in Korea, fifteen o'clock UTC. */
  lemma {:induction false} WindowIsDay(day: int, ts: int)
    ensures DayStart(day) <= ts < DayStart(day + 1) <==> DayOf(ts) == day
    ensures DayStart(day) + 9 * 3600 * 1000 == day * 24 * 3600 * 1000
  {}

  datatype TradeRef = TradeRef(key: Key, id: TradeId)

  function RefKey(r: TradeRef): TradeKey { TradeKey(r.key.market, r.id) }

  /** The sells of a market whose index score lies in a window, both ends included. */
  ghost function SellsIn(j: Journal, m: Market, lo: int, hi: int): set<TradeRef> {
    set k, t | k in j.index && k.market == m && t in j.index[k] && lo <= j.index[k][t] <= hi
      && TradeKey(k.market, t) in j.trades && j.trades[TradeKey(k.market, t)].side.Sell? :: TradeRef(k, t)
  }

  ghost function RealizedOf(j: Journal): TradeRef -> real {
    r => if RefKey(r) in j.trades then j.trades[RefKey(r)].realized else 0.0
  }

  /** Net realized PnL of the window, recomputed from the trade index. */
  ghost function Net(j: Journal, m: Market, lo: int, hi: int): real {
    SumOver(SellsIn(j, m, lo, hi), RealizedOf(j))
  }

  datatype SellTrade = SellTrade(ref: TradeRef, ts: int, pnl: real)

  function TsOf(): SellTrade -> int { (t: SellTrade) => t.ts }

  function Pnls(trades: seq<SellTrade>): seq<real> { seq(|trades|, i requires 0 <= i < |trades| => trades[i].pnl) }

  lemma {:induction false} SumPnlsAppend(trades: seq<SellTrade>, t: SellTrade)
    ensures Sum(Pnls(trades + [t])) == Sum(Pnls(trades)) + t.pnl
  {
    assert Pnls(trades + [t]) == Pnls(trades) + [t.pnl];
    SumAppend(Pnls(trades), t.pnl);
  }

  lemma {:induction false} SumPnlsInsert(t: SellTrade, trades: seq<SellTrade>)
    ensures Sum(Pnls(InsertBy(t, trades, TsOf()))) == Sum(Pnls(trades)) + t.pnl
  {
    SumPnlsAppend(trades, t);
    if trades != [] && trades[|trades| - 1].ts > t.ts {
      var init, last := trades[..|trades| - 1], trades[|trades| - 1];
      SumPnlsInsert(t, init);
      SumPnlsAppend(InsertBy(t, init, TsOf()), last);
      SumPnlsAppend(init, last);
      assert trades == init + [last];
    }
  }

  /** Sorting by time does not change the day's total. */
  lemma {:induction false} SumPnlsSort(trades: seq<SellTrade>)
    ensures Sum(Pnls(SortBy(trades, TsOf()))) == Sum(Pnls(trades))
  {
    if trades == [] {
    } else {
      var init, last := trades[..|trades| - 1], trades[|trades| - 1];
      SumPnlsSort(init);
      SumPnlsInsert(last, SortBy(init, TsOf()));
      SumPnlsAppend(init, last);
      assert trades == init + [last];
    }
  }

  ghost predicate Reads(j: Journal, t: SellTrade) {
    RefKey(t.ref) in j.trades && j.trades[RefKey(t.ref)].tsMs == t.ts && j.trades[RefKey(t.ref)].realized == t.pnl
  }

  ghost predicate NoRepeats(trades: seq<SellTrade>) { forall t :: multiset(trades)[t] <= 1 }

  lemma {:induction false} NoRepeatsAppend(trades: seq<SellTrade>, t: SellTrade)
    requires NoRepeats(trades) && t !in trades
    ensures NoRepeats(trades + [t])
  {
    assert multiset(trades)[t] == 0;
  }

  /** The listed trades are the non-zero sells among `refs`, and add up to all of them. */
  ghost predicate Lists(j: Journal, refs: set<TradeRef>, trades: seq<SellTrade>) {
    && (forall t :: t in trades ==> t.ref in refs && Reads(j, t) && t.pnl != 0.0)
    && NoRepeats(trades)
    && (forall r :: r in refs && RealizedOf(j)(r) != 0.0 ==> Found(r, trades))
    && Sum(Pnls(trades)) == SumOver(refs, RealizedOf(j))
  }

  ghost predicate Found(r: TradeRef, trades: seq<SellTrade>) { exists t :: t in trades && t.ref == r }

  lemma {:induction false} FoundAppend(trades: seq<SellTrade>, t: SellTrade)
    ensures forall r :: Found(r, trades + [t]) <==> r == t.ref || Found(r, trades)
  {
    assert t in trades + [t];
    forall r | Found(r, trades) ensures Found(r, trades + [t]) {
      var u :| u in trades && u.ref == r;
      assert u in trades + [t];
    }
  }

  lemma {:induction false} ListsOne(j: Journal, refs: set<TradeRef>, trades: seq<SellTrade>, t: SellTrade)
    requires Lists(j, refs, trades) && t.ref !in refs && Reads(j, t)
    ensures Lists(j, refs + {t.ref}, if t.pnl == 0.0 then trades else trades + [t])
  {
    SumOverInsert(refs, RealizedOf(j), t.ref);
    SumPnlsAppend(trades, t);
    NoRepeatsAppend(trades, t);
    FoundAppend(trades, t);
    hide NoRepeats, Found;
  }

  lemma {:induction false} ListsSorted(j: Journal, refs: set<TradeRef>, trades: seq<SellTrade>)
    requires Lists(j, refs, trades)
    ensures Lists(j, refs, SortBy(trades, TsOf()))
  {
    hide SortBy;
    SumPnlsSort(trades);
    SortKeepsElements(trades, TsOf());
    forall t ensures t in SortBy(trades, TsOf()) <==> t in trades {
      SortedMembers(trades, TsOf(), t);
    }
  }

  // ----- Statistics -----------------------------------------------------------

  function GrossProfit(pnls: seq<real>): real {
    if pnls == [] then 0.0 else GrossProfit(pnls[..|pnls| - 1]) + Max(pnls[|pnls| - 1], 0.0)
  }

  function GrossLoss(pnls: seq<real>): real {
    if pnls == [] then 0.0 else GrossLoss(pnls[..|pnls| - 1]) + Max(-pnls[|pnls| - 1], 0.0)
  }

  function Sizes(pnls: seq<real>): seq<real> {
    seq(|pnls|, i requires 0 <= i < |pnls| => if pnls[i] < 0.0 then -pnls[i] else pnls[i])
  }

  lemma {:induction false} NetIsProfitLessLoss(pnls: seq<real>)
    ensures GrossProfit(pnls) - GrossLoss(pnls) == Sum(pnls)
    ensures GrossProfit(pnls) + GrossLoss(pnls) == Sum(Sizes(pnls))
    ensures GrossProfit(pnls) >= 0.0 && GrossLoss(pnls) >= 0.0
  {
    if pnls == [] {
    } else {
      NetIsProfitLessLoss(pnls[..|pnls| - 1]);
      assert Sizes(pnls)[..|pnls| - 1] == Sizes(pnls[..|pnls| - 1]);
    }
  }

  datatype DailyStats = DailyStats(count: nat, grossProfit: real, grossLoss: real, net: real, maxDrawdown: real)

  class PerformanceReporter {
    const repo: RedisPositionRepository

    constructor (repo: RedisPositionRepository)
      ensures this.repo == repo
    {
      this.repo := repo;
    }

    /** The ids of one symbol's trades with a score in the window, in any order, and of
        these the sells that made or lost money. */
    method CollectSymbol(k: Key, lo: int, hi: int, ghost before: set<TradeRef>, trades: seq<SellTrade>)
      returns (more: seq<SellTrade>)
      requires k in repo.tradeIndex && Lists(repo.View().journal, before, trades)
      requires forall r :: r in before ==> r.key != k
      ensures Lists(repo.View().journal, before + SymbolSells(repo.View().journal, k, lo, hi), more)
    {
      more := trades;
      ghost var j, wanted, done := repo.View().journal, SymbolSells(repo.View().journal, k, lo, hi), before;
      var todo := set t | t in repo.tradeIndex[k] && lo <= repo.tradeIndex[k][t] <= hi;
      while todo != {}
        invariant forall t :: t in todo ==> t in repo.tradeIndex[k] && lo <= repo.tradeIndex[k][t] <= hi
        invariant forall t :: TradeRef(k, t) in wanted ==> t in todo || TradeRef(k, t) in done
        invariant forall t :: t in todo ==> TradeRef(k, t) !in done
        invariant before <= done <= before + wanted
        invariant Lists(j, done, more)
        decreases todo
      {
        var t :| t in todo;
        todo := todo - {t};
        var tk := TradeKey(k.market, t);
        if tk in repo.trades && repo.trades[tk].side == Sell {
          var trade := SellTrade(TradeRef(k, t), repo.trades[tk].tsMs, repo.trades[tk].realized);
          ListsOne(j, done, more, trade);
          if trade.pnl != 0.0 {
            more := more + [trade];
          }
          done := done + {trade.ref};
        }
      }
      assert done == before + wanted;
    }

    /** `_get_sell_trades_for_date`: the day's non-zero sells over all symbols ever traded,
        in time order. The end of the window is the next midnight, included. */
    method GetSellTradesForDate(m: Market, day: int) returns (trades: seq<SellTrade>)
      ensures Lists(repo.View().journal, SellsIn(repo.View().journal, m, DayStart(day), DayStart(day + 1)), trades)
      ensures SortedBy(trades, TsOf())
    {
      trades := [];
      ghost var j := repo.View().journal;
      var lo, hi := DayStart(day), DayStart(day + 1);
      var todo := set k | k in repo.tradeSymbols + repo.tradeIndex.Keys && k.market == m;
      ghost var done: set<TradeRef> := {};
      hide Lists;
      while todo != {}
        invariant forall k :: k in todo ==> k.market == m
        invariant forall r :: r in SellsIn(j, m, lo, hi) ==> r.key in todo || r in done
        invariant forall r :: r in done ==> r.key !in todo
        invariant done <= SellsIn(j, m, lo, hi)
        invariant Lists(j, done, trades)
        decreases todo
      {
        var k :| k in todo;
        todo := todo - {k};
        if k in repo.tradeIndex {
          trades := CollectSymbol(k, lo, hi, done, trades);
          assert forall r :: r in SellsIn(j, m, lo, hi) && r.key == k <==> r in SymbolSells(j, k, lo, hi);
          done := done + SymbolSells(j, k, lo, hi);
        }
      }
      assert done == SellsIn(j, m, lo, hi);
      ListsSorted(j, done, trades);
      SortSorts(trades, TsOf());
      trades := SortBy(trades, TsOf());
    }

    /** `compute_daily_stats`: whatever order ties come in, the net is the sum over the whole
        window and the drawdown is the greatest fall along the listed trades. */
    method ComputeDailyStats(m: Market, day: int) returns (stats: DailyStats, trades: seq<SellTrade>)
      ensures Lists(repo.View().journal, SellsIn(repo.View().journal, m, DayStart(day), DayStart(day + 1)), trades)
      ensures SortedBy(trades, TsOf())
      ensures stats.net == Net(repo.View().journal, m, DayStart(day), DayStart(day + 1))
      ensures stats.net == stats.grossProfit - stats.grossLoss
      ensures stats.grossProfit + stats.grossLoss == Sum(Sizes(Pnls(trades)))
      ensures stats.count == |trades| && IsMaxDrawdown(Pnls(trades), stats.maxDrawdown)
    {
      trades := GetSellTradesForDate(m, day);
      var pnls := Pnls(trades);
      NetIsProfitLessLoss(pnls);
      var drawdown := MaxDrawdown(pnls);
      stats := DailyStats(|trades|, GrossProfit(pnls), GrossLoss(pnls), GrossProfit(pnls) - GrossLoss(pnls), drawdown);
    }

    /** `sync_realized_pnl`: the recomputed net replaces the running realized PnL. */
    method SyncRealizedPnl(m: Market, day: int) returns (stats: DailyStats)
      modifies repo`pnl
      ensures repo.View() == Synced(old(repo.View()), m, day)
      ensures stats.net == PnlAt(repo.pnl, m).realized
    {
      var trades;
      stats, trades := ComputeDailyStats(m, day);
      repo.pnl := repo.pnl[m := Pnl(stats.net, PnlAt(repo.pnl, m).unrealized)];
    }
  }

  ghost function Synced(l: Ledger, m: Market, day: int): Ledger {
    l.(pnl := l.pnl[m := Pnl(Net(l.journal, m, DayStart(day), DayStart(day + 1)), PnlAt(l.pnl, m).unrealized)])
  }

  ghost function SymbolSells(j: Journal, k: Key, lo: int, hi: int): set<TradeRef>
    requires k in j.index
  {
    set t | t in j.index[k] && lo <= j.index[k][t] <= hi
      && TradeKey(k.market, t) in j.trades && j.trades[TradeKey(k.market, t)].side.Sell? :: TradeRef(k, t)
  }

  // ----- Running total against recomputed total -------------------------------

  /** Trade hashes, duplicate keys and the per-symbol index tell the same story. */
  ghost predicate Filed(j: Journal) {
    && j.trades.Keys == j.dedupe
    && (forall k, t :: k in j.index && t in j.index[k] ==>
          TradeKey(k.market, t) in j.trades
          && j.trades[TradeKey(k.market, t)].symbol == k.symbol
          && j.trades[TradeKey(k.market, t)].tsMs == j.index[k][t])
    && (forall tk :: tk in j.trades ==>
          var k := Key(tk.market, j.trades[tk].symbol);
          k in j.index && tk.id in j.index[k])
  }

  lemma {:induction false} RecordKeepsFiled(j: Journal, f: Fill, realized: real)
    requires Filed(j) && TradeKeyOf(f) !in j.dedupe
    ensures Filed(RecordTrade(j, f, realized))
  {
    var j' := RecordTrade(j, f, realized);
    forall k, t | k in j'.index && t in j'.index[k]
      ensures TradeKey(k.market, t) in j'.trades
        && j'.trades[TradeKey(k.market, t)].symbol == k.symbol
        && j'.trades[TradeKey(k.market, t)].tsMs == j'.index[k][t]
    {
      if k == KeyOf(f) && t == IdOf(f) {
      } else {
        assert k in j.index && t in j.index[k];
        assert TradeKey(k.market, t) in j.trades;
      }
    }
    forall tk | tk in j'.trades
      ensures Key(tk.market, j'.trades[tk].symbol) in j'.index
        && tk.id in j'.index[Key(tk.market, j'.trades[tk].symbol)]
    {
      if tk != TradeKeyOf(f) {
        assert tk in j.trades;
      }
    }
  }

  ghost predicate Counts(f: Fill, m: Market, lo: int, hi: int) {
    f.market == m && f.side.Sell? && lo <= TsMs(f.ts) <= hi
  }

  ghost predicate IsSellIn(j: Journal, m: Market, lo: int, hi: int, r: TradeRef) {
    && r.key in j.index && r.key.market == m && r.id in j.index[r.key] && lo <= j.index[r.key][r.id] <= hi
    && RefKey(r) in j.trades && j.trades[RefKey(r)].side.Sell?
  }

  lemma {:induction false} SellsInMembers(j: Journal, m: Market, lo: int, hi: int, r: TradeRef)
    ensures r in SellsIn(j, m, lo, hi) <==> IsSellIn(j, m, lo, hi, r)
  {}

  lemma {:induction false} RecordMovesSell(j: Journal, f: Fill, realized: real, m: Market, lo: int, hi: int,
      r: TradeRef)
    requires Filed(j) && TradeKeyOf(f) !in j.dedupe
    ensures var fresh_ := TradeRef(KeyOf(f), IdOf(f));
      && !IsSellIn(j, m, lo, hi, fresh_)
      && (IsSellIn(RecordTrade(j, f, realized), m, lo, hi, r)
          <==> if r == fresh_ then Counts(f, m, lo, hi) else IsSellIn(j, m, lo, hi, r))
  {
    if r.key in j.index && r.id in j.index[r.key] {
      assert RefKey(r) in j.trades;
    }
  }

  lemma {:induction false} RecordMovesSells(j: Journal, f: Fill, realized: real, m: Market, lo: int, hi: int)
    requires Filed(j) && TradeKeyOf(f) !in j.dedupe
    ensures var r := TradeRef(KeyOf(f), IdOf(f));
      && r !in SellsIn(j, m, lo, hi)
      && SellsIn(RecordTrade(j, f, realized), m, lo, hi)
         == SellsIn(j, m, lo, hi) + (if Counts(f, m, lo, hi) then {r} else {})
  {
    var j', r := RecordTrade(j, f, realized), TradeRef(KeyOf(f), IdOf(f));
    SellsInMembers(j, m, lo, hi, r);
    RecordMovesSell(j, f, realized, m, lo, hi, r);
    forall s: TradeRef
      ensures s in SellsIn(j', m, lo, hi) <==> if s == r then Counts(f, m, lo, hi) else s in SellsIn(j, m, lo, hi)
    {
      SellsInMembers(j, m, lo, hi, s);
      SellsInMembers(j', m, lo, hi, s);
      RecordMovesSell(j, f, realized, m, lo, hi, s);
    }
    hide SellsIn, RecordTrade, Counts, Filed, IsSellIn;
  }

  lemma {:induction false} RecordKeepsRealized(j: Journal, f: Fill, realized: real, m: Market, lo: int, hi: int)
    requires Filed(j) && TradeKeyOf(f) !in j.dedupe
    ensures RealizedOf(RecordTrade(j, f, realized))(TradeRef(KeyOf(f), IdOf(f))) == realized
    ensures forall s :: s in SellsIn(j, m, lo, hi) ==> RealizedOf(RecordTrade(j, f, realized))(s) == RealizedOf(j)(s)
  {
    assert forall s :: s in SellsIn(j, m, lo, hi) ==> RefKey(s) in j.trades;
  }

  /** Filing one new trade adds it to the windows that contain its time, and to no others. */
  lemma {:induction false} RecordMovesNet(j: Journal, f: Fill, realized: real, m: Market, lo: int, hi: int)
    requires Filed(j) && TradeKeyOf(f) !in j.dedupe
    ensures Net(RecordTrade(j, f, realized), m, lo, hi) == Net(j, m, lo, hi)
      + (if Counts(f, m, lo, hi) then realized else 0.0)
  {
    var j', r := RecordTrade(j, f, realized), TradeRef(KeyOf(f), IdOf(f));
    RecordMovesSells(j, f, realized, m, lo, hi);
    RecordKeepsRealized(j, f, realized, m, lo, hi);
    hide RecordTrade, Filed, SellsIn, RealizedOf, Counts;
    SumMoves(SellsIn(j, m, lo, hi), RealizedOf(j), RealizedOf(j'), r, Counts(f, m, lo, hi));
  }

  lemma {:induction false} SumMoves(s: set<TradeRef>, f: TradeRef -> real, g: TradeRef -> real, r: TradeRef,
      joins: bool)
    requires r !in s && forall x :: x in s ==> f(x) == g(x)
    ensures SumOver(s + (if joins then {r} else {}), g) == SumOver(s, f) + (if joins then g(r) else 0.0)
  {
    hide SumOver;
    SumOverAgrees(s, f, g);
    if joins {
      SumOverInsert(s, g, r);
    } else {
      assert s + {} == s;
    }
  }

  /** A sell that was filed but whose delta never reached the running total. */
  ghost function UnpaidBy(l: Ledger, e: Event, m: Market): real {
    if e.FillEvent? && e.fill.market == m && e.fill.side.Sell? && (e.fault.AfterRecord? || e.fault.AfterSave?)
       && TradeKeyOf(e.fill) !in l.journal.dedupe && SellQty(e.fill, PositionAt(l.portfolio, KeyOf(e.fill))) > 0.0
    then RealizedDelta(e.fill, PositionAt(l.portfolio, KeyOf(e.fill))) else 0.0
  }

  ghost function Unpaid(l: Ledger, es: seq<Event>, m: Market): real {
    if es == [] then 0.0
    else Unpaid(l, es[..|es| - 1], m) + UnpaidBy(Run(l, es[..|es| - 1]), es[|es| - 1], m)
  }

  /** Every fill of this market carries a time inside the window. */
  ghost predicate WithinWindow(es: seq<Event>, m: Market, lo: int, hi: int) {
    forall e :: e in es && e.FillEvent? && e.fill.market == m ==> lo <= TsMs(e.fill.ts) <= hi
  }

  ghost predicate InStep(l: Ledger, l': Ledger, unpaid: real, m: Market, lo: int, hi: int) {
    PnlAt(l'.pnl, m).realized - PnlAt(l.pnl, m).realized + unpaid
        == Net(l'.journal, m, lo, hi) - Net(l.journal, m, lo, hi)
  }

  /** Recording a fill keeps the journal filed and moves the net by what counts of it. */
  lemma {:induction false} RecordInStep(j: Journal, f: Fill, delta: real, m: Market, lo: int, hi: int)
    requires Filed(j) && TradeKeyOf(f) !in j.dedupe
    requires (f.market == m ==> lo <= TsMs(f.ts) <= hi) && (f.side.Buy? ==> delta == 0.0)
    ensures Filed(RecordTrade(j, f, delta))
    ensures Net(RecordTrade(j, f, delta), m, lo, hi) - Net(j, m, lo, hi) == if f.market == m then delta else 0.0
  {
    RecordKeepsFiled(j, f, delta);
    RecordMovesNet(j, f, delta, m, lo, hi);
  }

  lemma {:induction false} BookedInStep(l: Ledger, f: Fill, fault: Fault, m: Market, lo: int, hi: int)
    requires Filed(l.journal) && (f.market == m ==> lo <= TsMs(f.ts) <= hi)
    requires Books(l, f, fault)
    ensures var l' := ApplyFill(l, f, fault).0;
      Filed(l'.journal) && InStep(l, l', UnpaidBy(l, FillEvent(f, fault), m), m, lo, hi)
  {
    var delta := RealizedDelta(f, PositionAt(l.portfolio, KeyOf(f)));
    assert f.side.Buy? ==> delta == 0.0;
    hide ApplyFill, RecordTrade, Net, RealizedDelta, Filed, NextPosition, SavePosition;
    RecordInStep(l.journal, f, delta, m, lo, hi);
    BookedFill(l, f, fault);
  }

  lemma {:induction false} UnbookedInStep(l: Ledger, f: Fill, fault: Fault, m: Market, lo: int, hi: int)
    requires Filed(l.journal) && (f.market == m ==> lo <= TsMs(f.ts) <= hi)
    requires !Books(l, f, fault)
    ensures var l' := ApplyFill(l, f, fault).0;
      Filed(l'.journal) && InStep(l, l', UnpaidBy(l, FillEvent(f, fault), m), m, lo, hi)
  {
    hide ApplyFill, RecordTrade, Net, Filed;
    var delta := RealizedDelta(f, PositionAt(l.portfolio, KeyOf(f)));
    assert f.side.Buy? ==> delta == 0.0;
    hide RealizedDelta;
    UnbookedFill(l, f, fault);
    if TradeKeyOf(f) !in l.journal.dedupe {
      RecordInStep(l.journal, f, delta, m, lo, hi);
    }
  }

  lemma {:induction false} StepMovesTotals(l: Ledger, e: Event, m: Market, lo: int, hi: int)
    requires Filed(l.journal)
    requires e.FillEvent? && e.fill.market == m ==> lo <= TsMs(e.fill.ts) <= hi
    ensures Filed(Step(l, e).journal) && InStep(l, Step(l, e), UnpaidBy(l, e, m), m, lo, hi)
  {
    if e.FillEvent? {
      if Books(l, e.fill, e.fault) {
        BookedInStep(l, e.fill, e.fault, m, lo, hi);
      } else {
        UnbookedInStep(l, e.fill, e.fault, m, lo, hi);
      }
    }
  }

  /** Over any run whose fills fall inside the window, the running realized PnL and the
      total recomputed from the index move together, short of exactly the sells that were
      filed but cut off before the running total was updated. */
  lemma {:induction false} TotalsMoveTogether(l: Ledger, es: seq<Event>, m: Market, lo: int, hi: int)
    requires Filed(l.journal) && WithinWindow(es, m, lo, hi)
    ensures Filed(Run(l, es).journal)
    ensures InStep(l, Run(l, es), Unpaid(l, es, m), m, lo, hi)
  {
    if es == [] {
    } else {
      var front, e := es[..|es| - 1], es[|es| - 1];
      TotalsMoveTogether(l, front, m, lo, hi);
      StepMovesTotals(Run(l, front), e, m, lo, hi);
    }
  }

  /** A day that starts in step, at zero say, ends in step: `sync_realized_pnl` finds
      nothing to correct exactly when no sell of the run was left unpaid on balance. */
  lemma {:induction false} SyncIsNoOpIffNothingUnpaid(l: Ledger, es: seq<Event>, m: Market, day: int)
    requires Filed(l.journal) && WithinWindow(es, m, DayStart(day), DayStart(day + 1))
    requires PnlAt(l.pnl, m).realized == Net(l.journal, m, DayStart(day), DayStart(day + 1))
    ensures var end := Run(l, es);
      PnlAt(Synced(end, m, day).pnl, m).realized == PnlAt(end.pnl, m).realized + Unpaid(l, es, m)
    ensures PnlAt(Synced(Run(l, es), m, day).pnl, m) == PnlAt(Run(l, es).pnl, m) <==> Unpaid(l, es, m) == 0.0
  {
    TotalsMoveTogether(l, es, m, DayStart(day), DayStart(day + 1));
  }

  /** Runs without faults leave nothing unpaid. */
  lemma {:induction false} CleanRunsPayAll(l: Ledger, es: seq<Event>, m: Market)
    requires forall e :: e in es && e.FillEvent? ==> !e.fault.AfterRecord? && !e.fault.AfterSave?
    ensures Unpaid(l, es, m) == 0.0
  {
    if es == [] {
    } else {
      CleanRunsPayAll(l, es[..|es| - 1], m);
    }
  }

  /** Neighbouring days share their boundary, because the end of the window is included:
      two daily nets add up to the two-day net exactly when the sells booked on the stroke
      of midnight cancel out. */
  lemma {:induction false} MidnightCountsTwice(j: Journal, m: Market, day: int)
    ensures var a, b, c := DayStart(day), DayStart(day + 1), DayStart(day + 2);
      && Net(j, m, a, b) + Net(j, m, b, c) == Net(j, m, a, c) + Net(j, m, b, b)
      && (Net(j, m, a, b) + Net(j, m, b, c) == Net(j, m, a, c) <==> Net(j, m, b, b) == 0.0)
  {
    var a, b, c := DayStart(day), DayStart(day + 1), DayStart(day + 2);
    var first, second, midnight := SellsIn(j, m, a, b), SellsIn(j, m, b, c), SellsIn(j, m, b, b);
    assert SellsIn(j, m, a, c) == first + (second - midnight);
    assert second == (second - midnight) + midnight;
    SumOverUnion(first, second - midnight, RealizedOf(j));
    SumOverUnion(second - midnight, midnight, RealizedOf(j));
  }
}
