/** The fill ledger as a value: everything the position engine keeps in Redis, and the
    effect of one fill on it. The classes in Repository.dfy are proved against this. */
module FillLedger {
  import opened Common
  import opened Domain

  datatype Key = Key(market: Market, symbol: string)

  datatype TradeKey = TradeKey(market: Market, id: TradeId)

  datatype Position = Position(qty: real, avg: real, realized: real)

  datatype Pnl = Pnl(realized: real, unrealized: real)

  datatype Trade = Trade(symbol: string, side: Side, qty: real, price: real, realized: real, tsMs: int, fee: real)

  datatype Reason = SellWithoutPosition | RetriesExhausted

  datatype DlqEntry = Failed(fill: Fill, reason: Reason) | Unparsed(raw: string)

  /** Position hashes, the position index and the high-water marks set when a position opens. */
  datatype Portfolio = Portfolio(positions: map<Key, Position>, index: set<Key>, hwm: map<Key, real>)

  /** Duplicate keys, trade hashes, the time-ordered trade index and the set of traded symbols. */
  datatype Journal = Journal(
    dedupe: set<TradeKey>, trades: map<TradeKey, Trade>,
    index: map<Key, map<TradeId, int>>, symbols: set<Key>)

  datatype Ledger = Ledger(
    portfolio: Portfolio, journal: Journal, marks: map<Key, real>, pnl: map<Market, Pnl>, dlq: seq<DlqEntry>)

  const EMPTY := Ledger(Portfolio(map[], {}, map[]), Journal({}, map[], map[], {}), map[], map[], [])

  function KeyOf(f: Fill): Key { Key(f.market, f.symbol) }

  function TradeKeyOf(f: Fill): TradeKey { TradeKey(f.market, IdOf(f)) }

  /** A missing position hash reads as all zeros. */
  function PositionAt(b: Portfolio, k: Key): Position {
    if k in b.positions then b.positions[k] else Position(0.0, 0.0, 0.0)
  }

  function PnlAt(pnl: map<Market, Pnl>, m: Market): Pnl {
    if m in pnl then pnl[m] else Pnl(0.0, 0.0)
  }

  // ----- Repository writes ----------------------------------------------------

  function SavePosition(b: Portfolio, k: Key, p: Position): Portfolio {
    if p.qty == 0.0 then Portfolio(b.positions - {k}, b.index - {k}, b.hwm)
    else Portfolio(b.positions[k := p], b.index + {k}, if k in b.positions then b.hwm else b.hwm[k := p.avg])
  }

  function RecordTrade(j: Journal, f: Fill, realized: real): Journal {
    var k := KeyOf(f);
    var scores := if k in j.index then j.index[k] else map[];
    Journal(
      j.dedupe + {TradeKeyOf(f)},
      j.trades[TradeKeyOf(f) := Trade(f.symbol, f.side, f.qty, f.price, realized, TsMs(f.ts), f.fee)],
      j.index[k := scores[IdOf(f) := TsMs(f.ts)]],
      j.symbols + {k})
  }

  function AddRealized(pnl: map<Market, Pnl>, m: Market, delta: real): map<Market, Pnl> {
    pnl[m := Pnl(PnlAt(pnl, m).realized + delta, PnlAt(pnl, m).unrealized)]
  }

  /** The positions `recalc_unrealized` sees: indexed, stored and marked. */
  ghost function Marked(b: Portfolio, marks: map<Key, real>, m: Market): set<Key> {
    set k | k in b.index && k.market == m && k in b.positions && k in marks
  }

  ghost function OpenGain(b: Portfolio, marks: map<Key, real>, k: Key): real {
    if k in b.positions && k in marks then (marks[k] - b.positions[k].avg) * b.positions[k].qty else 0.0
  }

  ghost function OpenGains(b: Portfolio, marks: map<Key, real>): Key -> real { k => OpenGain(b, marks, k) }

  ghost function Unrealized(b: Portfolio, marks: map<Key, real>, m: Market): real {
    SumOver(Marked(b, marks, m), OpenGains(b, marks))
  }

  ghost function Recalc(l: Ledger, m: Market): Ledger {
    l.(pnl := l.pnl[m := Pnl(PnlAt(l.pnl, m).realized, Unrealized(l.portfolio, l.marks, m))])
  }

  // ----- One fill -------------------------------------------------------------

  /** Where an exception strikes: after which group of Redis writes the call is cut off. */
  datatype Fault = NoFault | AtRead | AfterRecord | AfterSave | AfterPnl | AfterMark | AfterRecalc

  datatype Outcome = Duplicate | NoPosition | Applied(delta: Option<real>) | Raised

  function SellQty(f: Fill, p: Position): real { Min(f.qty, p.qty) }

  function RealizedDelta(f: Fill, p: Position): real {
    if f.side.Buy? then 0.0 else (f.price - p.avg) * SellQty(f, p) - f.fee
  }

  /** Averaging divides by the new quantity, so a buy that nets a position to zero raises. */
  predicate DivisionByZero(f: Fill, p: Position) {
    f.side.Buy? && p.qty != 0.0 && p.qty + f.qty == 0.0
  }

  function NextPosition(f: Fill, p: Position): Position
    requires !DivisionByZero(f, p)
  {
    if f.side.Buy? then
      if p.qty == 0.0 then Position(p.qty + f.qty, f.price, p.realized)
      else Position(p.qty + f.qty, (p.qty * p.avg + f.qty * f.price) / (p.qty + f.qty), p.realized)
    else
      var rest := p.qty - SellQty(f, p);
      Position(rest, if rest > 0.0 then p.avg else 0.0, p.realized + RealizedDelta(f, p))
  }

  /** `PositionEngine.apply_fill`: duplicate check, oversell check, trade record, position,
      realized PnL, mark, unrealized PnL, in the source's order of writes. */
  ghost function ApplyFill(l: Ledger, f: Fill, fault: Fault): (Ledger, Outcome) {
    var p := PositionAt(l.portfolio, KeyOf(f));
    if fault.AtRead? then (l, Raised)
    else if TradeKeyOf(f) in l.journal.dedupe then (l, Duplicate)
    else if f.side.Sell? && SellQty(f, p) <= 0.0 then
      (l.(dlq := [Failed(f, SellWithoutPosition)] + l.dlq), NoPosition)
    else
      var recorded := l.(journal := RecordTrade(l.journal, f, RealizedDelta(f, p)));
      if fault.AfterRecord? || DivisionByZero(f, p) then (recorded, Raised)
      else BookFill(recorded, f, p, fault)
  }

  /** The writes that follow the trade record. */
  ghost function BookFill(l: Ledger, f: Fill, p: Position, fault: Fault): (Ledger, Outcome)
    requires !DivisionByZero(f, p)
  {
    var saved := l.(portfolio := SavePosition(l.portfolio, KeyOf(f), NextPosition(f, p)));
    if fault.AfterSave? then (saved, Raised)
    else
      var paid := if f.side.Sell? then saved.(pnl := AddRealized(l.pnl, f.market, RealizedDelta(f, p))) else saved;
      if fault.AfterPnl? then (paid, Raised)
      else
        var marked := paid.(marks := l.marks[KeyOf(f) := f.price]);
        if fault.AfterMark? then (marked, Raised)
        else
          var done := Recalc(marked, f.market);
          if fault.AfterRecalc? then (done, Raised)
          else (done, Applied(if f.side.Sell? then Some(RealizedDelta(f, p)) else None))
  }

  /** Does this call change the position, that is, is the fill booked? */
  predicate Books(l: Ledger, f: Fill, fault: Fault) {
    var p := PositionAt(l.portfolio, KeyOf(f));
    && !fault.AtRead? && !fault.AfterRecord?
    && TradeKeyOf(f) !in l.journal.dedupe
    && !(f.side.Sell? && SellQty(f, p) <= 0.0)
    && !DivisionByZero(f, p)
  }

  /** Does this call file the trade id and then stop short of the position? */
  predicate FilesOnly(l: Ledger, f: Fill, fault: Fault) {
    var p := PositionAt(l.portfolio, KeyOf(f));
    && TradeKeyOf(f) !in l.journal.dedupe && !fault.AtRead?
    && !(f.side.Sell? && SellQty(f, p) <= 0.0)
    && (fault.AfterRecord? || DivisionByZero(f, p))
  }

  /** What a booked fill does, component by component. */
  lemma {:induction false} BookedFill(l: Ledger, f: Fill, fault: Fault)
    requires Books(l, f, fault)
    ensures var l' := ApplyFill(l, f, fault).0;
      var p := PositionAt(l.portfolio, KeyOf(f));
      && l'.portfolio == SavePosition(l.portfolio, KeyOf(f), NextPosition(f, p))
      && l'.journal == RecordTrade(l.journal, f, RealizedDelta(f, p))
      && l'.dlq == l.dlq
      && (forall m :: PnlAt(l'.pnl, m).realized == PnlAt(l.pnl, m).realized
            + (if m == f.market && f.side.Sell? && !fault.AfterSave? then RealizedDelta(f, p) else 0.0))
      && l'.marks == if fault.AfterSave? || fault.AfterPnl? then l.marks else l.marks[KeyOf(f) := f.price]
  {}

  /** A call that books nothing may still file the trade id or a dead letter, no more. */
  lemma {:induction false} UnbookedFill(l: Ledger, f: Fill, fault: Fault)
    requires !Books(l, f, fault)
    ensures var l' := ApplyFill(l, f, fault).0;
      var p := PositionAt(l.portfolio, KeyOf(f));
      && l'.portfolio == l.portfolio && l'.pnl == l.pnl && l'.marks == l.marks
      && l'.journal == if FilesOnly(l, f, fault) then RecordTrade(l.journal, f, RealizedDelta(f, p)) else l.journal
  {}

  // ----- Runs -----------------------------------------------------------------

  /** What happens to the ledger over time: fills, market-data marks, the market-data
      updater's recalculation of unrealized PnL, and the worker's dead letters. */
  datatype Event =
    | FillEvent(fill: Fill, fault: Fault)
    | MarkEvent(key: Key, price: real)
    | RecalcEvent(market: Market)
    | DeadLetterEvent(entry: DlqEntry)

  ghost function Step(l: Ledger, e: Event): Ledger {
    match e
    case FillEvent(f, fault) => ApplyFill(l, f, fault).0
    case MarkEvent(k, price) => l.(marks := l.marks[k := price])
    case RecalcEvent(m) => Recalc(l, m)
    case DeadLetterEvent(entry) => l.(dlq := [entry] + l.dlq)
  }

  ghost function Run(l: Ledger, es: seq<Event>): Ledger {
    if es == [] then l else Step(Run(l, es[..|es| - 1]), es[|es| - 1])
  }

  lemma {:induction false} RunConcat(l: Ledger, a: seq<Event>, b: seq<Event>)
    ensures Run(l, a + b) == Run(Run(l, a), b)
    decreases |b|
  {
    if b == [] {
      assert a + b == a;
    } else {
      assert (a + b)[..|a + b| - 1] == a + b[..|b| - 1];
      RunConcat(l, a, b[..|b| - 1]);
    }
  }

  lemma {:induction false} RunOfOne(l: Ledger, e: Event)
    ensures Run(l, [e]) == Step(l, e)
  {
    assert [e][..0] == [];
    assert Run(l, [e][..0]) == l;
  }
}
