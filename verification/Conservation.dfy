/** Cash conservation of the fill ledger: whatever fills arrive, in whatever order, with
    whatever duplicates, oversells and cut-off calls, the average-cost books agree with a
    cash book that knows nothing about averages. */
module Conservation {
  import opened Common
  import opened Domain
  import opened FillLedger

  // ----- The reference: a cash book -------------------------------------------

  /** Quantities bought and sold per symbol, money paid and received per market. */
  datatype CashBook = CashBook(
    bought: map<Key, real>, sold: map<Key, real>,
    cost: map<Market, real>, proceeds: map<Market, real>, fees: map<Market, real>,
    seen: set<TradeKey>)

  const NO_CASH := CashBook(map[], map[], map[], map[], map[], {})

  function At<T>(m: map<T, real>, k: T): real { if k in m then m[k] else 0.0 }

  function Bump<T>(m: map<T, real>, k: T, amount: real): map<T, real> { m[k := At(m, k) + amount] }

  function Holding(c: CashBook, k: Key): real { At(c.bought, k) - At(c.sold, k) }

  /** Money in minus money out. Fees on buys are not charged by the source. */
  function NetCash(c: CashBook, m: Market): real { At(c.proceeds, m) - At(c.cost, m) - At(c.fees, m) }

  function CashFill(c: CashBook, f: Fill, fault: Fault): CashBook {
    var k, held := KeyOf(f), Holding(c, KeyOf(f));
    var noted := c.(seen := c.seen + {TradeKeyOf(f)});
    if fault.AtRead? || TradeKeyOf(f) in c.seen then c
    else if f.side.Sell? then
      var q := Min(f.qty, held);
      if q <= 0.0 then c
      else if fault.AfterRecord? then noted
      else noted.(sold := Bump(c.sold, k, q), proceeds := Bump(c.proceeds, f.market, q * f.price),
                  fees := Bump(c.fees, f.market, f.fee))
    else if fault.AfterRecord? || (held != 0.0 && held + f.qty == 0.0) then noted
    else noted.(bought := Bump(c.bought, k, f.qty), cost := Bump(c.cost, f.market, f.qty * f.price))
  }

  function CashStep(c: CashBook, e: Event): CashBook {
    if e.FillEvent? then CashFill(c, e.fill, e.fault) else c
  }

  function CashRun(es: seq<Event>): CashBook {
    if es == [] then NO_CASH else CashStep(CashRun(es[..|es| - 1]), es[|es| - 1])
  }

  // ----- The ledger's side ----------------------------------------------------

  /** The index and the position hashes never disagree, and no empty position is kept. */
  ghost predicate Indexed(b: Portfolio) {
    && b.index == b.positions.Keys
    && forall k :: k in b.positions ==> b.positions[k].qty != 0.0
  }

  ghost function Held(b: Portfolio, m: Market): set<Key> { set k | k in b.index && k.market == m }

  ghost function CostAt(b: Portfolio, k: Key): real { PositionAt(b, k).qty * PositionAt(b, k).avg }

  ghost function Costs(b: Portfolio): Key -> real { k => CostAt(b, k) }

  /** Total cost basis: quantity times average, summed over the open positions. */
  ghost function CostBasis(b: Portfolio, m: Market): real { SumOver(Held(b, m), Costs(b)) }

  /** A sell cut off between saving the position and updating the PnL loses its delta. */
  ghost function LostBy(l: Ledger, e: Event, m: Market): real {
    if e.FillEvent? && e.fault.AfterSave? && e.fill.side.Sell? && e.fill.market == m && Books(l, e.fill, e.fault)
    then RealizedDelta(e.fill, PositionAt(l.portfolio, KeyOf(e.fill))) else 0.0
  }

  ghost function Lost(es: seq<Event>, m: Market): real {
    if es == [] then 0.0
    else Lost(es[..|es| - 1], m) + LostBy(Run(EMPTY, es[..|es| - 1]), es[|es| - 1], m)
  }

  // ----- Proof ----------------------------------------------------------------

  lemma {:induction false} BuyKeepsCost(f: Fill, p: Position)
    requires f.side.Buy? && !DivisionByZero(f, p)
    ensures NextPosition(f, p).qty == p.qty + f.qty
    ensures NextPosition(f, p).qty * NextPosition(f, p).avg == p.qty * p.avg + f.qty * f.price
  {
    if p.qty != 0.0 {
      var total, money := p.qty + f.qty, p.qty * p.avg + f.qty * f.price;
      assert total * (money / total) == money;
    }
  }

  lemma {:induction false} SellKeepsCost(f: Fill, p: Position)
    requires f.side.Sell? && SellQty(f, p) > 0.0
    ensures NextPosition(f, p).qty == p.qty - SellQty(f, p)
    ensures NextPosition(f, p).qty * NextPosition(f, p).avg == p.qty * p.avg - SellQty(f, p) * p.avg
    ensures RealizedDelta(f, p) == SellQty(f, p) * f.price - SellQty(f, p) * p.avg - f.fee
  {}

  /** Saving one position changes that position and its index entry, nothing else. */
  lemma {:induction false} SaveEffect(b: Portfolio, k: Key, p: Position)
    requires Indexed(b)
    ensures var b' := SavePosition(b, k, p);
      && Indexed(b')
      && PositionAt(b', k).qty == p.qty
      && CostAt(b', k) == p.qty * p.avg
      && (forall k' :: k' != k ==> (k' in b'.index <==> k' in b.index) && PositionAt(b', k') == PositionAt(b, k'))
  {}

  lemma {:induction false} CostSplit(b: Portfolio, k: Key, m: Market)
    requires Indexed(b)
    ensures CostBasis(b, m)
         == SumOver(Held(b, m) - {k}, Costs(b)) + (if k.market == m then CostAt(b, k) else 0.0)
  {
    if k in Held(b, m) {
      SumOverPick(Held(b, m), Costs(b), k);
    } else {
      assert Held(b, m) - {k} == Held(b, m);
    }
  }

  /** Portfolios that differ at one position differ in cost basis by that position's cost. */
  lemma {:induction false} CostMoves(b: Portfolio, b': Portfolio, k: Key, m: Market)
    requires Indexed(b) && Indexed(b')
    requires forall k' :: k' != k ==> (k' in b'.index <==> k' in b.index) && PositionAt(b', k') == PositionAt(b, k')
    ensures CostBasis(b', m) - CostBasis(b, m) == if k.market == m then CostAt(b', k) - CostAt(b, k) else 0.0
  {
    CostSplit(b, k, m);
    CostSplit(b', k, m);
    assert Held(b, m) - {k} == Held(b', m) - {k};
    SumOverAgrees(Held(b, m) - {k}, Costs(b), Costs(b'));
  }

  ghost predicate Agrees(l: Ledger, c: CashBook, lost: Market -> real) {
    && Indexed(l.portfolio)
    && l.journal.dedupe == c.seen
    && (forall k :: PositionAt(l.portfolio, k).qty == Holding(c, k))
    && (forall m :: PnlAt(l.pnl, m).realized + lost(m) - CostBasis(l.portfolio, m) == NetCash(c, m))
  }

  ghost function CashEffect(f: Fill, p: Position): real {
    if f.side.Buy? then -(f.qty * f.price) else SellQty(f, p) * f.price - f.fee
  }

  /** The money side of one booked fill: realized delta less change in cost is net cash. */
  lemma {:induction false} MoneyMoves(f: Fill, p: Position)
    requires !DivisionByZero(f, p) && (f.side.Sell? ==> SellQty(f, p) > 0.0)
    ensures var p' := NextPosition(f, p);
      RealizedDelta(f, p) - (p'.qty * p'.avg - p.qty * p.avg) == CashEffect(f, p)
  {
    if f.side.Buy? { BuyKeepsCost(f, p); } else { SellKeepsCost(f, p); }
  }

  /** The cash book's side of the same fill. */
  lemma {:induction false} CashMovesBuy(c: CashBook, f: Fill, fault: Fault, p: Position)
    requires p.qty == Holding(c, KeyOf(f))
    requires !fault.AtRead? && !fault.AfterRecord? && TradeKeyOf(f) !in c.seen
    requires f.side.Buy? && !DivisionByZero(f, p)
    ensures var c' := CashFill(c, f, fault);
      && c'.seen == c.seen + {TradeKeyOf(f)}
      && (forall m :: NetCash(c', m) == NetCash(c, m) - (if m == f.market then f.qty * f.price else 0.0))
      && (forall k :: Holding(c', k) == if k == KeyOf(f) then p.qty + f.qty else Holding(c, k))
  {}

  lemma {:induction false} CashMovesSell(c: CashBook, f: Fill, fault: Fault, p: Position)
    requires p.qty == Holding(c, KeyOf(f))
    requires !fault.AtRead? && !fault.AfterRecord? && TradeKeyOf(f) !in c.seen
    requires f.side.Sell? && SellQty(f, p) > 0.0
    ensures var c' := CashFill(c, f, fault);
      && c'.seen == c.seen + {TradeKeyOf(f)}
      && (forall m ::
            NetCash(c', m) == NetCash(c, m) + (if m == f.market then SellQty(f, p) * f.price - f.fee else 0.0))
      && (forall k :: Holding(c', k) == if k == KeyOf(f) then p.qty - SellQty(f, p) else Holding(c, k))
  {}

  lemma {:induction false} CashMoves(c: CashBook, f: Fill, fault: Fault, p: Position, m: Market)
    requires p.qty == Holding(c, KeyOf(f))
    requires !fault.AtRead? && !fault.AfterRecord? && TradeKeyOf(f) !in c.seen
    requires !DivisionByZero(f, p) && (f.side.Sell? ==> SellQty(f, p) > 0.0)
    ensures NetCash(CashFill(c, f, fault), m) - NetCash(c, m) == if m == f.market then CashEffect(f, p) else 0.0
  {
    if f.side.Buy? { CashMovesBuy(c, f, fault, p); } else { CashMovesSell(c, f, fault, p); }
  }

  /** The cost basis moves by the realized delta less the cash that moved. */
  lemma {:induction false} BookedCost(b: Portfolio, f: Fill, m: Market)
    requires var p := PositionAt(b, KeyOf(f));
      Indexed(b) && !DivisionByZero(f, p) && (f.side.Sell? ==> SellQty(f, p) > 0.0)
    ensures var p := PositionAt(b, KeyOf(f));
      CostBasis(SavePosition(b, KeyOf(f), NextPosition(f, p)), m) - CostBasis(b, m)
      == if m == f.market then RealizedDelta(f, p) - CashEffect(f, p) else 0.0
  {
    var p := PositionAt(b, KeyOf(f));
    hide NextPosition, CashEffect, RealizedDelta, SavePosition, SellQty;
    SaveEffect(b, KeyOf(f), NextPosition(f, p));
    CostMoves(b, SavePosition(b, KeyOf(f), NextPosition(f, p)), KeyOf(f), m);
    MoneyMoves(f, p);
  }

  /** Both sides of a booked fill move by the same amount. */
  lemma {:induction false} BookedMoney(l: Ledger, c: CashBook, f: Fill, fault: Fault, m: Market)
    requires Indexed(l.portfolio) && l.journal.dedupe == c.seen && Books(l, f, fault)
    requires PositionAt(l.portfolio, KeyOf(f)).qty == Holding(c, KeyOf(f))
    ensures var l', c' := ApplyFill(l, f, fault).0, CashFill(c, f, fault);
      PnlAt(l'.pnl, m).realized - CostBasis(l'.portfolio, m) + LostBy(l, FillEvent(f, fault), m) - NetCash(c', m)
      == PnlAt(l.pnl, m).realized - CostBasis(l.portfolio, m) - NetCash(c, m)
  {
    var p := PositionAt(l.portfolio, KeyOf(f));
    assert f.side.Buy? ==> RealizedDelta(f, p) == 0.0;
    hide CashEffect, RealizedDelta, NetCash;
    BookedFill(l, f, fault);
    BookedCost(l.portfolio, f, m);
    CashMoves(c, f, fault, p, m);
  }

  lemma {:induction false} BookedHoldings(l: Ledger, c: CashBook, f: Fill, fault: Fault)
    requires Indexed(l.portfolio) && l.journal.dedupe == c.seen && Books(l, f, fault)
    requires forall k :: PositionAt(l.portfolio, k).qty == Holding(c, k)
    ensures var l', c' := ApplyFill(l, f, fault).0, CashFill(c, f, fault);
      && Indexed(l'.portfolio) && l'.journal.dedupe == c'.seen
      && forall k :: PositionAt(l'.portfolio, k).qty == Holding(c', k)
  {
    var p := PositionAt(l.portfolio, KeyOf(f));
    BookedFill(l, f, fault);
    SaveEffect(l.portfolio, KeyOf(f), NextPosition(f, p));
    if f.side.Buy? {
      CashMovesBuy(c, f, fault, p);
      BuyKeepsCost(f, p);
    } else {
      CashMovesSell(c, f, fault, p);
      SellKeepsCost(f, p);
    }
  }

  lemma {:induction false} BookedAgrees(l: Ledger, c: CashBook, lost: Market -> real, e: Event, lost': Market -> real)
    requires Agrees(l, c, lost)
    requires forall m :: lost'(m) == lost(m) + LostBy(l, e, m)
    requires e.FillEvent? && Books(l, e.fill, e.fault)
    ensures Agrees(Step(l, e), CashStep(c, e), lost')
  {
    var l', c' := Step(l, e), CashStep(c, e);
    assert PositionAt(l.portfolio, KeyOf(e.fill)).qty == Holding(c, KeyOf(e.fill));
    BookedHoldings(l, c, e.fill, e.fault);
    forall m ensures PnlAt(l'.pnl, m).realized + lost'(m) - CostBasis(l'.portfolio, m) == NetCash(c', m) {
      BookedMoney(l, c, e.fill, e.fault, m);
      assert PnlAt(l.pnl, m).realized + lost(m) - CostBasis(l.portfolio, m) == NetCash(c, m);
    }
  }

  lemma {:induction false} UnbookedAgrees(l: Ledger, c: CashBook, lost: Market -> real, e: Event, lost': Market -> real)
    requires Agrees(l, c, lost)
    requires forall m :: lost'(m) == lost(m) + LostBy(l, e, m)
    requires e.FillEvent? && !Books(l, e.fill, e.fault)
    ensures Agrees(Step(l, e), CashStep(c, e), lost')
  {
    var f := e.fill;
    assert PositionAt(l.portfolio, KeyOf(f)).qty == Holding(c, KeyOf(f));
    UnbookedFill(l, f, e.fault);
    assert forall m :: NetCash(CashStep(c, e), m) == NetCash(c, m);
    assert forall k :: Holding(CashStep(c, e), k) == Holding(c, k);
  }

  lemma {:induction false} StepAgrees(l: Ledger, c: CashBook, lost: Market -> real, e: Event, lost': Market -> real)
    requires Agrees(l, c, lost)
    requires forall m :: lost'(m) == lost(m) + LostBy(l, e, m)
    ensures Agrees(Step(l, e), CashStep(c, e), lost')
  {
    if e.FillEvent? && Books(l, e.fill, e.fault) {
      BookedAgrees(l, c, lost, e, lost');
    } else if e.FillEvent? {
      UnbookedAgrees(l, c, lost, e, lost');
    }
  }

  ghost function LostIn(es: seq<Event>): Market -> real { m => Lost(es, m) }

  lemma {:induction false} RunAgrees(es: seq<Event>)
    ensures Agrees(Run(EMPTY, es), CashRun(es), LostIn(es))
  {
    if es == [] {
      forall m ensures CostBasis(EMPTY.portfolio, m) == 0.0 {
        assert Held(EMPTY.portfolio, m) == {};
      }
    } else {
      var front, last := es[..|es| - 1], es[|es| - 1];
      RunAgrees(front);
      StepAgrees(Run(EMPTY, front), CashRun(front), LostIn(front), last, LostIn(es));
    }
  }

  // ----- Results --------------------------------------------------------------

  /** For every run whatsoever: quantities are bought minus sold, the ids on file are the
      ids seen, and realized PnL minus cost basis is the net cash moved, short of exactly
      the deltas of sells cut off between their two writes. */
  lemma {:induction false} CashConservation(es: seq<Event>, m: Market)
    ensures var l, c := Run(EMPTY, es), CashRun(es);
      && PnlAt(l.pnl, m).realized - CostBasis(l.portfolio, m) == NetCash(c, m) - Lost(es, m)
      && (forall k :: PositionAt(l.portfolio, k).qty == Holding(c, k))
      && l.journal.dedupe == c.seen
  {
    RunAgrees(es);
    assert LostIn(es)(m) == Lost(es, m);
  }

  /** Market value of what the cash book says is held. */
  ghost function MarketValues(marks: map<Key, real>, c: CashBook): Key -> real {
    k => Holding(c, k) * At(marks, k)
  }

  /** Every open position of the market has a mark. */
  ghost predicate AllMarked(l: Ledger, m: Market) {
    forall k :: k in l.portfolio.index && k.market == m ==> k in l.marks
  }

  /** The open gains of a fully marked portfolio are its market value less its cost. */
  lemma {:induction false} GainIsValueLessCost(l: Ledger, c: CashBook, m: Market)
    requires Indexed(l.portfolio) && AllMarked(l, m)
    requires forall k :: PositionAt(l.portfolio, k).qty == Holding(c, k)
    ensures Unrealized(l.portfolio, l.marks, m)
         == SumOver(Held(l.portfolio, m), MarketValues(l.marks, c)) - CostBasis(l.portfolio, m)
  {
    var b, values := l.portfolio, MarketValues(l.marks, c);
    assert Marked(b, l.marks, m) == Held(b, m);
    forall k | k in Held(b, m) ensures OpenGains(b, l.marks)(k) == values(k) - Costs(b)(k) {
      assert PositionAt(b, k).qty == Holding(c, k);
    }
    SumOverDifference(Held(b, m), values, Costs(b), OpenGains(b, l.marks));
  }

  /** After `recalc_unrealized`, total PnL is cash moved plus holdings at market, whatever
      the averages were, as soon as every open position has a mark. */
  lemma {:induction false} EquityAfterRecalc(es: seq<Event>, m: Market)
    requires AllMarked(Run(EMPTY, es), m)
    ensures var l, c := Run(EMPTY, es + [RecalcEvent(m)]), CashRun(es);
      PnlAt(l.pnl, m).realized + PnlAt(l.pnl, m).unrealized
        == NetCash(c, m) - Lost(es, m) + SumOver(Held(l.portfolio, m), MarketValues(l.marks, c))
  {
    assert (es + [RecalcEvent(m)])[..|es|] == es;
    CashConservation(es, m);
    RunAgrees(es);
    GainIsValueLessCost(Run(EMPTY, es), CashRun(es), m);
  }

  /** No call of the run was cut off between saving a position and marking it. */
  ghost predicate Untorn(es: seq<Event>) {
    forall e :: e in es && e.FillEvent? ==> !e.fault.AfterSave? && !e.fault.AfterPnl?
  }

  /** Such runs lose nothing and leave every open position marked. */
  lemma {:induction false} UntornRuns(es: seq<Event>, m: Market)
    requires Untorn(es)
    ensures Lost(es, m) == 0.0
    ensures AllMarked(Run(EMPTY, es), m)
  {
    if es == [] {
    } else {
      var front, e := es[..|es| - 1], es[|es| - 1];
      UntornRuns(front, m);
      var l := Run(EMPTY, front);
      if e.FillEvent? && Books(l, e.fill, e.fault) {
        BookedFill(l, e.fill, e.fault);
      } else if e.FillEvent? {
        UnbookedFill(l, e.fill, e.fault);
      }
    }
  }

  /** An applied fill ends with the recalculation, so total PnL is right after every one that
      leaves no open position of its market unmarked, short of the deltas already lost. */
  lemma {:induction false} EquityAfterFill(es: seq<Event>, f: Fill)
    requires ApplyFill(Run(EMPTY, es), f, NoFault).1.Applied?
    ensures var all, m := es + [FillEvent(f, NoFault)], f.market;
      var l, c := Run(EMPTY, all), CashRun(all);
      AllMarked(l, m) ==>
        PnlAt(l.pnl, m).realized + PnlAt(l.pnl, m).unrealized
          == NetCash(c, m) - Lost(all, m) + SumOver(Held(l.portfolio, m), MarketValues(l.marks, c))
  {
    var all := es + [FillEvent(f, NoFault)];
    assert all[..|es|] == es;
    CashConservation(all, f.market);
    RunAgrees(all);
    var l := Run(EMPTY, all);
    if AllMarked(l, f.market) {
      GainIsValueLessCost(l, CashRun(all), f.market);
      AppliedEndsInRecalc(Run(EMPTY, es), f);
    }
  }

  lemma {:induction false} AppliedEndsInRecalc(l: Ledger, f: Fill)
    requires ApplyFill(l, f, NoFault).1.Applied?
    ensures var l' := ApplyFill(l, f, NoFault).0;
      PnlAt(l'.pnl, f.market).unrealized == Unrealized(l'.portfolio, l'.marks, f.market)
  {}

  // ----- Marks ----------------------------------------------------------------

  /** What an open position gains or loses at its mark. */
  function GainAt(p: Position, mark: real): real { p.qty * mark - p.qty * p.avg }

  lemma {:induction false} OpenGainTells(b: Portfolio, marks: map<Key, real>, k: Key)
    requires k in b.positions
    ensures OpenGain(b, marks, k) == if k in marks then GainAt(b.positions[k], marks[k]) else 0.0
  {}

  lemma {:induction false} MarkReplacesGain(b: Portfolio, marks: map<Key, real>, k: Key, price: real)
    requires k in b.index && k in b.positions
    ensures var m, marks' := k.market, marks[k := price];
      Unrealized(b, marks', m) == Unrealized(b, marks, m) - OpenGain(b, marks, k) + OpenGain(b, marks', k)
  {
    var marks' := marks[k := price];
    var others := Marked(b, marks, k.market) - {k};
    var f, g := OpenGains(b, marks), OpenGains(b, marks');
    assert forall x :: x in others ==> f(x) == g(x);
    assert k !in marks ==> f(k) == 0.0;
    hide OpenGain;
    assert Marked(b, marks', k.market) == others + {k};
    SumOverInsert(others, g, k);
    SumOverInsert(others, f, k);
    SumOverAgrees(others, f, g);
    assert Marked(b, marks, k.market) == if k in marks then others + {k} else others;
  }

  /** A new mark of an open position replaces its gain at the old one in the next recalculation, and
      leaves the gains of all others. */
  lemma {:induction false} MarkMovesUnrealized(l: Ledger, k: Key, price: real)
    requires Indexed(l.portfolio) && k in l.portfolio.index
    ensures var m, p := k.market, PositionAt(l.portfolio, k);
      var l' := Step(Step(l, MarkEvent(k, price)), RecalcEvent(m));
      && PnlAt(l'.pnl, m).unrealized
         == PnlAt(Step(l, RecalcEvent(m)).pnl, m).unrealized
            - (if k in l.marks then GainAt(p, l.marks[k]) else 0.0) + GainAt(p, price)
      && PnlAt(l'.pnl, m).realized == PnlAt(l.pnl, m).realized
      && l'.portfolio == l.portfolio && l'.journal == l.journal
  {
    MarkReplacesGain(l.portfolio, l.marks, k, price);
    OpenGainTells(l.portfolio, l.marks, k);
    OpenGainTells(l.portfolio, l.marks[k := price], k);
    hide GainAt, OpenGain, Unrealized;
  }
}
