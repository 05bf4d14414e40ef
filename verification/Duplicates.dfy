/** Which fills are duplicates of each other, said of the fills themselves, and what the
    journal remembers of a fill. */
module Duplicates {
  import opened Common
  import opened Domain
  import opened FillLedger
  import opened Conservation
  import opened LedgerSafety

  // ----- The same trade -------------------------------------------------------

  predicate HasExecution(f: Fill) { f.execId.Some? && f.execId.value != "" }

  /** The order id as far as it counts: at most 64 characters, "na" when there is none. */
  function OrderPart(f: Fill): string {
    var order := if f.orderId == None || f.orderId == Some("") then "na" else f.orderId.value;
    order[..if |order| < 64 then |order| else 64]
  }

  /** Two fills stand for the same trade: of one market, with the same execution id, or both
      without one and alike in symbol, side, time, quantity, price and order. */
  predicate SameTrade(f: Fill, g: Fill) {
    && f.market == g.market
    && if HasExecution(f) || HasExecution(g) then HasExecution(f) && HasExecution(g) && f.execId == g.execId
       else
         && f.symbol == g.symbol && f.side == g.side && f.ts == g.ts && f.qty == g.qty && f.price == g.price
         && OrderPart(f) == OrderPart(g)
  }

  lemma {:induction false} SameIdIff(f: Fill, g: Fill)
    ensures TradeKeyOf(f) == TradeKeyOf(g) <==> SameTrade(f, g)
  {
    OrderInId(f);
    OrderInId(g);
  }

  lemma {:induction false} OrderInId(f: Fill)
    ensures HasExecution(f) ==> IdOf(f) == Executed(f.execId.value)
    ensures !HasExecution(f) ==> IdOf(f).Derived? && IdOf(f).order == OrderPart(f)
  {}

  /** The event filed a trade: the journal has one it did not have. */
  ghost predicate FilesTrade(l: Ledger, e: Event) {
    e.FillEvent? && Step(l, e).journal.trades != l.journal.trades
  }

  /** Some earlier event of the run filed this trade. */
  ghost predicate FiledBefore(es: seq<Event>, f: Fill) {
    exists i :: 0 <= i < |es| && FilesTrade(Run(EMPTY, es[..i]), es[i]) && SameTrade(f, es[i].fill)
  }

  /** Ids on file and trade hashes are the same from the start on. */
  lemma {:induction false} IdsAreTrades(es: seq<Event>)
    ensures Run(EMPTY, es).journal.dedupe == Run(EMPTY, es).journal.trades.Keys
  {
    if es == [] {
    } else {
      var front, e := es[..|es| - 1], es[|es| - 1];
      IdsAreTrades(front);
      StepFiles(Run(EMPTY, front), e);
      hide Step;
    }
  }

  lemma {:induction false} StepFiles(l: Ledger, e: Event)
    requires l.journal.dedupe == l.journal.trades.Keys
    ensures var j := Step(l, e).journal;
      && j.dedupe == j.trades.Keys
      && (FilesTrade(l, e) ==>
            TradeKeyOf(e.fill) !in l.journal.dedupe && j.dedupe == l.journal.dedupe + {TradeKeyOf(e.fill)})
      && (!FilesTrade(l, e) ==> j.dedupe == l.journal.dedupe)
  {
    if e.FillEvent? && Books(l, e.fill, e.fault) {
      BookedFill(l, e.fill, e.fault);
    } else if e.FillEvent? {
      UnbookedFill(l, e.fill, e.fault);
    }
  }

  lemma {:induction false} OnFileIff(es: seq<Event>, f: Fill)
    ensures TradeKeyOf(f) in Run(EMPTY, es).journal.dedupe <==> FiledBefore(es, f)
  {
    if es == [] {
    } else {
      hide Step, SameTrade, FilesTrade, TradeKeyOf;
      var front, e := es[..|es| - 1], es[|es| - 1];
      var l := Run(EMPTY, front);
      OnFileIff(front, f);
      IdsAreTrades(front);
      StepFiles(l, e);
      FiledBeforeSplits(es, f);
      if FilesTrade(l, e) {
        SameIdIff(f, e.fill);
      }
    }
  }

  lemma {:induction false} FiledBeforeSplits(es: seq<Event>, f: Fill)
    requires es != []
    ensures var front, e := es[..|es| - 1], es[|es| - 1];
      FiledBefore(es, f) <==>
        FiledBefore(front, f) || (FilesTrade(Run(EMPTY, front), e) && SameTrade(f, e.fill))
  {
    hide Run, FilesTrade, SameTrade;
    var front, e := es[..|es| - 1], es[|es| - 1];
    assert forall i :: 0 <= i < |front| ==> front[..i] == es[..i] && front[i] == es[i];
    assert es[..|front|] == front;
  }

  /** On every run from the start a fill is taken for a duplicate exactly when an earlier one
      that was filed is the same trade. */
  lemma {:induction false} DuplicateIff(es: seq<Event>, f: Fill)
    ensures ApplyFill(Run(EMPTY, es), f, NoFault).1 == Duplicate <==> FiledBefore(es, f)
  {
    OnFileIff(es, f);
    hide FiledBefore, Run;
  }

  /** Two buys that are not the same trade, and neither filed before, both count in full. */
  lemma {:induction false} DifferentBuysBothCount(es: seq<Event>, f: Fill, g: Fill)
    requires PositiveQty(es) && f.side.Buy? && g.side.Buy? && f.qty > 0.0 && g.qty > 0.0
    requires !FiledBefore(es, f) && !FiledBefore(es, g) && !SameTrade(f, g)
    ensures var before, (one, first) := Run(EMPTY, es), ApplyFill(Run(EMPTY, es), f, NoFault);
      var (two, second) := ApplyFill(one, g, NoFault);
      && first.Applied? && second.Applied?
      && (forall k ::
            PositionAt(two.portfolio, k).qty
            == PositionAt(before.portfolio, k).qty + (if k == KeyOf(f) then f.qty else 0.0)
               + (if k == KeyOf(g) then g.qty else 0.0))
  {
    var l := Run(EMPTY, es);
    OnFileIff(es, f);
    OnFileIff(es, g);
    SameIdIff(f, g);
    LongOnly(es);
    RunAgrees(es);
    hide Run, FiledBefore, SameTrade, TradeKeyOf;
    BuyCounts(l, f);
    BuyCounts(ApplyFill(l, f, NoFault).0, g);
    hide ApplyFill;
  }

  lemma {:induction false} BuyCounts(l: Ledger, f: Fill)
    requires Indexed(l.portfolio) && f.side.Buy? && f.qty > 0.0 && TradeKeyOf(f) !in l.journal.dedupe
    requires PositionAt(l.portfolio, KeyOf(f)).qty >= 0.0
    ensures var (l', out) := ApplyFill(l, f, NoFault);
      && out.Applied? && Indexed(l'.portfolio)
      && l'.journal.dedupe == l.journal.dedupe + {TradeKeyOf(f)}
      && (forall k ::
            PositionAt(l'.portfolio, k).qty
            == PositionAt(l.portfolio, k).qty + (if k == KeyOf(f) then f.qty else 0.0))
  {
    var p := PositionAt(l.portfolio, KeyOf(f));
    BookedFill(l, f, NoFault);
    BuyKeepsCost(f, p);
    SaveEffect(l.portfolio, KeyOf(f), NextPosition(f, p));
  }

  // ----- What is filed --------------------------------------------------------

  lemma {:induction false} FilesRecords(l: Ledger, f: Fill, fault: Fault)
    requires FilesTrade(l, FillEvent(f, fault))
    ensures Step(l, FillEvent(f, fault)).journal
        == RecordTrade(l.journal, f, RealizedDelta(f, PositionAt(l.portfolio, KeyOf(f))))
  {
    if Books(l, f, fault) {
      BookedFill(l, f, fault);
    } else {
      UnbookedFill(l, f, fault);
    }
    hide RecordTrade, RealizedDelta, ApplyFill;
  }

  lemma {:induction false} SaleGain(f: Fill, p: Position)
    requires f.side.Sell?
    ensures RealizedDelta(f, p) == (if f.qty <= p.qty then f.qty else p.qty) * (f.price - p.avg) - f.fee
  {}

  /** Whatever a run files, the hash repeats the fill, with the realized delta of its own sale:
      the quantity sold times the gain per share, less the fee. */
  lemma {:induction false} FiledTradeTellsFill(l: Ledger, f: Fill, fault: Fault)
    requires FilesTrade(l, FillEvent(f, fault))
    ensures var j, p, k := Step(l, FillEvent(f, fault)).journal, PositionAt(l.portfolio, KeyOf(f)), KeyOf(f);
      && k == Key(f.market, f.symbol)
      && TradeKeyOf(f) in j.trades && k in j.symbols && k in j.index && IdOf(f) in j.index[k]
      && var t := j.trades[TradeKeyOf(f)];
         && t.symbol == f.symbol && t.side == f.side && t.qty == f.qty && t.price == f.price && t.fee == f.fee
         && t.tsMs == TsMs(f.ts) == j.index[k][IdOf(f)]
         && (f.side.Buy? ==> t.realized == 0.0)
         && (f.side.Sell? ==> t.realized == (if f.qty <= p.qty then f.qty else p.qty) * (f.price - p.avg) - f.fee)
  {
    FilesRecords(l, f, fault);
    if f.side.Sell? {
      SaleGain(f, PositionAt(l.portfolio, KeyOf(f)));
      hide RealizedDelta;
    }
    hide Step, FilesTrade, TsMs, IdOf;
  }

  /** A booked sale takes its quantity off the position, but no more than is held. */
  lemma {:induction false} SaleTakes(l: Ledger, f: Fill, fault: Fault)
    requires Indexed(l.portfolio) && f.side.Sell? && Books(l, f, fault)
    ensures var before, after := PositionAt(l.portfolio, KeyOf(f)),
        PositionAt(ApplyFill(l, f, fault).0.portfolio, KeyOf(f));
      && before.qty > 0.0 && f.qty > 0.0
      && (f.qty < before.qty ==> after.qty == before.qty - f.qty && after.avg == before.avg)
      && (f.qty >= before.qty ==> after.qty == 0.0 && KeyOf(f) !in ApplyFill(l, f, fault).0.portfolio.index)
  {
    BookedFill(l, f, fault);
    hide ApplyFill;
  }

  /** A call that books its fill undisturbed reports the gain of a sale on the quantity sold, less the
      fee, and nothing for a buy. */
  lemma {:induction false} OutcomeTellsGain(l: Ledger, f: Fill)
    requires Books(l, f, NoFault)
    ensures var p := PositionAt(l.portfolio, KeyOf(f));
      match ApplyFill(l, f, NoFault).1
      case Applied(None) => f.side.Buy?
      case Applied(Some(gain)) => f.side.Sell?
          && gain == (if f.qty <= p.qty then f.qty else p.qty) * (f.price - p.avg) - f.fee
      case _ => false
  {
    if f.side.Sell? {
      SaleGain(f, PositionAt(l.portfolio, KeyOf(f)));
    }
    hide RealizedDelta, RecordTrade, NextPosition, SavePosition, Recalc;
  }
}
