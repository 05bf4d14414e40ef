/** Safety of the fill ledger over whole runs: duplicates, oversells, the position index
    and the bounds of the average cost. Calls may be cut off anywhere unless a statement
    says otherwise. */
module LedgerSafety {
  import opened Common
  import opened Domain
  import opened FillLedger
  import opened Conservation

  // ----- Duplicates -----------------------------------------------------------

  lemma {:induction false} FiledIdsPersist(l: Ledger, es: seq<Event>)
    ensures l.journal.dedupe <= Run(l, es).journal.dedupe
  {
    if es == [] {
    } else {
      FiledIdsPersist(l, es[..|es| - 1]);
      StepKeepsIds(Run(l, es[..|es| - 1]), es[|es| - 1]);
    }
  }

  lemma {:induction false} StepKeepsIds(l: Ledger, e: Event)
    ensures l.journal.dedupe <= Step(l, e).journal.dedupe
  {
    if e.FillEvent? && Books(l, e.fill, e.fault) {
      BookedFill(l, e.fill, e.fault);
    } else if e.FillEvent? {
      UnbookedFill(l, e.fill, e.fault);
    }
  }

  /** A fill whose id is on file changes nothing at all: not the position, the PnL, the
      marks, the journal or the dead letters. */
  lemma {:induction false} RepeatIsNoOp(l: Ledger, f: Fill, fault: Fault)
    requires TradeKeyOf(f) in l.journal.dedupe
    ensures ApplyFill(l, f, fault).0 == l
    ensures ApplyFill(l, f, fault).1 == if fault.AtRead? then Raised else Duplicate
  {}

  /** Inserting a repeat of a booked fill anywhere later in a run, cut off or not, does not
      change the outcome of the run. The repeat need only share the trade id. */
  lemma {:induction false} RepeatsAreHarmless(
      l: Ledger, before: seq<Event>, f: Fill, fault: Fault, between: seq<Event>,
      again: Fill, fault': Fault, after: seq<Event>)
    requires Books(Run(l, before), f, fault)
    requires TradeKeyOf(again) == TradeKeyOf(f)
    ensures Run(l, before + [FillEvent(f, fault)] + between + [FillEvent(again, fault')] + after)
         == Run(l, before + [FillEvent(f, fault)] + between + after)
  {
    var first, repeat := FillEvent(f, fault), FillEvent(again, fault');
    var prefix := before + [first] + between;
    RunConcat(l, before, [first]);
    RunConcat(l, before + [first], between);
    RunConcat(l, prefix, [repeat]);
    RunConcat(l, prefix + [repeat], after);
    RunConcat(l, prefix, after);
    RunOfOne(Run(l, before), first);
    RunOfOne(Run(l, prefix), repeat);
    FiledIdsPersist(Run(l, before + [first]), between);
    BookedFill(Run(l, before), f, fault);
    RepeatIsNoOp(Run(l, prefix), again, fault');
  }

  /** How often the run books a fill with this trade id. */
  ghost function Bookings(l: Ledger, es: seq<Event>, id: TradeKey): nat {
    if es == [] then 0
    else
      var e := es[|es| - 1];
      Bookings(l, es[..|es| - 1], id)
        + (if e.FillEvent? && TradeKeyOf(e.fill) == id && Books(Run(l, es[..|es| - 1]), e.fill, e.fault) then 1 else 0)
  }

  /** Every trade id is booked at most once, and never if it was on file at the start. */
  lemma {:induction false} BookedAtMostOnce(l: Ledger, es: seq<Event>, id: TradeKey)
    ensures Bookings(l, es, id) <= 1
    ensures id in l.journal.dedupe ==> Bookings(l, es, id) == 0
    ensures Bookings(l, es, id) == 1 ==> id in Run(l, es).journal.dedupe
  {
    if es == [] {
    } else {
      var front, e := es[..|es| - 1], es[|es| - 1];
      BookedAtMostOnce(l, front, id);
      FiledIdsPersist(l, front);
      if e.FillEvent? && Books(Run(l, front), e.fill, e.fault) {
        BookedFill(Run(l, front), e.fill, e.fault);
      } else if e.FillEvent? {
        UnbookedFill(Run(l, front), e.fill, e.fault);
      }
    }
  }

  /** At most once, not exactly once: the call that files an id books its fill unless it is
      cut off right behind the trade record or averaging divides by zero. After that the
      fill is lost, because every retry is taken for a duplicate. */
  lemma {:induction false} FiledButLostIff(l: Ledger, f: Fill, fault: Fault)
    requires TradeKeyOf(f) !in l.journal.dedupe
    requires TradeKeyOf(f) in ApplyFill(l, f, fault).0.journal.dedupe
    ensures !Books(l, f, fault) <==> fault.AfterRecord? || DivisionByZero(f, PositionAt(l.portfolio, KeyOf(f)))
    ensures !Books(l, f, fault) ==>
      ApplyFill(l, f, fault).0.portfolio == l.portfolio
      && forall retry :: TradeKeyOf(retry) == TradeKeyOf(f) ==>
           ApplyFill(ApplyFill(l, f, fault).0, retry, NoFault).1 == Duplicate
  {}

  // ----- Positive quantities --------------------------------------------------

  ghost predicate PositiveQty(es: seq<Event>) {
    forall e :: e in es && e.FillEvent? ==> e.fill.qty > 0.0
  }

  /** With positive quantities every position in the books is long, nothing is sold that
      was not bought, and a symbol is in the index exactly when it has a position. */
  lemma {:induction false} NeverOversold(es: seq<Event>)
    requires PositiveQty(es)
    ensures var l, c := Run(EMPTY, es), CashRun(es);
      && (forall k :: k in l.portfolio.index <==> k in l.portfolio.positions)
      && (forall k :: k in l.portfolio.positions ==> l.portfolio.positions[k].qty > 0.0)
      && (forall k :: At(c.sold, k) <= At(c.bought, k))
  {
    LongOnly(es);
    RunAgrees(es);
    var l, c := Run(EMPTY, es), CashRun(es);
    forall k ensures At(c.sold, k) <= At(c.bought, k)
        && (k in l.portfolio.positions ==> l.portfolio.positions[k].qty > 0.0) {
      assert PositionAt(l.portfolio, k).qty == Holding(c, k);
    }
  }

  lemma {:induction false} LongOnly(es: seq<Event>)
    requires PositiveQty(es)
    ensures forall k :: PositionAt(Run(EMPTY, es).portfolio, k).qty >= 0.0
  {
    if es == [] {
    } else {
      var front, e := es[..|es| - 1], es[|es| - 1];
      LongOnly(front);
      RunAgrees(front);
      var l := Run(EMPTY, front);
      if e.FillEvent? {
        if Books(l, e.fill, e.fault) {
          var p := PositionAt(l.portfolio, KeyOf(e.fill));
          BookedFill(l, e.fill, e.fault);
          if e.fill.side.Buy? { BuyKeepsCost(e.fill, p); } else { SellKeepsCost(e.fill, p); }
          SaveEffect(l.portfolio, KeyOf(e.fill), NextPosition(e.fill, p));
        } else {
          UnbookedFill(l, e.fill, e.fault);
        }
      }
    }
  }

  // ----- Average cost ---------------------------------------------------------

  /** The prices of the buys booked for `k` since it was last flat. */
  ghost function Lots(es: seq<Event>, k: Key): seq<real> {
    if es == [] then []
    else
      var e, l, lots := es[|es| - 1], Run(EMPTY, es[..|es| - 1]), Lots(es[..|es| - 1], k);
      if !(e.FillEvent? && KeyOf(e.fill) == k && Books(l, e.fill, e.fault)) then lots
      else if e.fill.side.Buy? then lots + [e.fill.price]
      else if e.fill.qty >= PositionAt(l.portfolio, k).qty then []
      else lots
  }

  function Lowest(xs: seq<real>): real
    requires xs != []
  {
    if |xs| == 1 then xs[0] else Min(Lowest(xs[..|xs| - 1]), xs[|xs| - 1])
  }

  function Highest(xs: seq<real>): real
    requires xs != []
  {
    if |xs| == 1 then xs[0] else Max(Highest(xs[..|xs| - 1]), xs[|xs| - 1])
  }

  lemma {:induction false} PositiveFactor(q: real, d: real)
    requires q > 0.0
    ensures q * d >= 0.0 <==> d >= 0.0
  {}

  /** An average over positive quantities lies between the two prices averaged. */
  lemma {:induction false} AverageBetween(q: real, a: real, r: real, b: real, avg: real, lo: real, hi: real)
    requires q > 0.0 && r > 0.0 && lo <= a <= hi && lo <= b <= hi
    requires (q + r) * avg == q * a + r * b
    ensures lo <= avg <= hi
  {
    PositiveFactor(q, a - lo);
    PositiveFactor(r, b - lo);
    PositiveFactor(q, hi - a);
    PositiveFactor(r, hi - b);
    assert (q + r) * (avg - lo) == q * (a - lo) + r * (b - lo);
    assert (q + r) * (hi - avg) == q * (hi - a) + r * (hi - b);
    PositiveFactor(q + r, avg - lo);
    PositiveFactor(q + r, hi - avg);
  }

  ghost predicate AverageBounded(p: Position, lots: seq<real>) {
    if p.qty == 0.0 then lots == [] else lots != [] && Lowest(lots) <= p.avg <= Highest(lots)
  }

  lemma {:induction false} ExtremesAppend(lots: seq<real>, x: real)
    ensures Lowest(lots + [x]) == if lots == [] then x else Min(Lowest(lots), x)
    ensures Highest(lots + [x]) == if lots == [] then x else Max(Highest(lots), x)
  {
    assert (lots + [x])[..|lots|] == lots;
  }

  lemma {:induction false} BuyStaysBounded(f: Fill, p: Position, lots: seq<real>)
    requires f.side.Buy? && f.qty > 0.0 && p.qty >= 0.0 && AverageBounded(p, lots)
    ensures AverageBounded(NextPosition(f, p), lots + [f.price])
  {
    var p' := NextPosition(f, p);
    BuyKeepsCost(f, p);
    ExtremesAppend(lots, f.price);
    if p.qty != 0.0 {
      var lo, hi := Min(Lowest(lots), f.price), Max(Highest(lots), f.price);
      AverageBetween(p.qty, p.avg, f.qty, f.price, p'.avg, lo, hi);
    }
  }

  /** While a position is open its average cost lies between the lowest and the highest
      price paid since it was last flat; partial sells never move it. */
  lemma {:induction false} AverageCostBounds(es: seq<Event>, k: Key)
    requires PositiveQty(es)
    ensures AverageBounded(PositionAt(Run(EMPTY, es).portfolio, k), Lots(es, k))
  {
    if es == [] {
    } else {
      var front, e := es[..|es| - 1], es[|es| - 1];
      AverageCostBounds(front, k);
      LongOnly(front);
      RunAgrees(front);
      var l := Run(EMPTY, front);
      if e.FillEvent? && !Books(l, e.fill, e.fault) {
        UnbookedFill(l, e.fill, e.fault);
      } else if e.FillEvent? {
        var f, p := e.fill, PositionAt(l.portfolio, KeyOf(e.fill));
        BookedFill(l, f, e.fault);
        BookedBounds(l.portfolio, f, p, k, Lots(front, k));
      }
    }
  }

  lemma {:induction false} BookedBounds(b: Portfolio, f: Fill, p: Position, k: Key, lots: seq<real>)
    requires Indexed(b) && p == PositionAt(b, KeyOf(f)) && p.qty >= 0.0 && f.qty > 0.0
    requires !DivisionByZero(f, p) && (f.side.Sell? ==> SellQty(f, p) > 0.0)
    requires AverageBounded(PositionAt(b, k), lots)
    ensures AverageBounded(PositionAt(SavePosition(b, KeyOf(f), NextPosition(f, p)), k),
              if KeyOf(f) != k then lots
              else if f.side.Buy? then lots + [f.price]
              else if f.qty >= p.qty then []
              else lots)
  {
    if KeyOf(f) == k && f.side.Buy? {
      BuyStaysBounded(f, p, lots);
    }
  }

  // ----- Realized gains of a position -----------------------------------------

  /** A sale's gain on its own quantity, after its fee. */
  function Earns(f: Fill, p: Position): real { f.qty * (f.price - p.avg) - f.fee }

  /** What the sales booked for `k` have earned since it was last flat. */
  ghost function Earned(es: seq<Event>, k: Key): real {
    if es == [] then 0.0
    else
      var e, l, before := es[|es| - 1], Run(EMPTY, es[..|es| - 1]), Earned(es[..|es| - 1], k);
      if !(e.FillEvent? && KeyOf(e.fill) == k && Books(l, e.fill, e.fault)) then before
      else EarnedAfter(before, e.fill, PositionAt(l.portfolio, k))
  }

  function EarnedAfter(before: real, f: Fill, p: Position): real {
    if f.side.Buy? then before else if f.qty >= p.qty then 0.0 else before + Earns(f, p)
  }

  lemma {:induction false} NextEarnings(f: Fill, p: Position)
    requires f.qty > 0.0 && p.qty >= 0.0 && !DivisionByZero(f, p) && (f.side.Sell? ==> SellQty(f, p) > 0.0)
    ensures var p' := NextPosition(f, p);
      if p'.qty == 0.0 then EarnedAfter(p.realized, f, p) == 0.0 else p'.realized == EarnedAfter(p.realized, f, p)
  {}

  lemma {:induction false} BookedEarnings(b: Portfolio, f: Fill, p: Position, k: Key)
    requires p == PositionAt(b, KeyOf(f)) && f.qty > 0.0 && p.qty >= 0.0
    requires !DivisionByZero(f, p) && (f.side.Sell? ==> SellQty(f, p) > 0.0)
    ensures PositionAt(SavePosition(b, KeyOf(f), NextPosition(f, p)), k).realized
        == if KeyOf(f) == k then EarnedAfter(p.realized, f, p) else PositionAt(b, k).realized
  {
    NextEarnings(f, p);
    hide NextPosition, EarnedAfter, DivisionByZero;
  }

  /** An open position carries what its own sales have earned, whatever the run. */
  lemma {:induction false} PositionCarriesEarnings(es: seq<Event>, k: Key)
    requires PositiveQty(es)
    ensures PositionAt(Run(EMPTY, es).portfolio, k).realized == Earned(es, k)
  {
    if es == [] {
    } else {
      hide NextPosition, RealizedDelta, ApplyFill, EarnedAfter, SavePosition, SellQty, DivisionByZero;
      var front, e := es[..|es| - 1], es[|es| - 1];
      PositionCarriesEarnings(front, k);
      LongOnly(front);
      var l := Run(EMPTY, front);
      if e.FillEvent? && !Books(l, e.fill, e.fault) {
        UnbookedFill(l, e.fill, e.fault);
      } else if e.FillEvent? {
        var f, p := e.fill, PositionAt(l.portfolio, KeyOf(e.fill));
        BookedFill(l, f, e.fault);
        BookedEarnings(l.portfolio, f, p, k);
      }
    }
  }

  /** A position that opens starts with its high-water mark at its own average, whatever
      the symbol's earlier life left behind. */
  lemma {:induction false} OpeningResetsHighWaterMark(l: Ledger, f: Fill, fault: Fault)
    requires Indexed(l.portfolio) && Books(l, f, fault) && f.side.Buy?
    requires KeyOf(f) !in l.portfolio.positions && f.qty != 0.0
    ensures var b := ApplyFill(l, f, fault).0.portfolio;
      KeyOf(f) in b.hwm && b.hwm[KeyOf(f)] == b.positions[KeyOf(f)].avg == f.price
  {
    BookedFill(l, f, fault);
  }
}
