/** The Redis-backed repository and the position engine as the source writes them: objects
    whose methods update maps, sets and lists in place. Each method is proved against the
    ledger value of FillLedger.dfy. */
module Repository {
  import opened Common
  import opened Domain
  import opened FillLedger

  /** One entry of the fill queue: a fill, or text that does not parse as one. */
  datatype Payload = Queued(fill: Fill) | Garbled(raw: string)

  lemma {:induction false} NothingAdded(f: Key -> real)
    ensures SumOver({}, f) == 0.0
  {}

  lemma {:induction false} AddGain(b: Portfolio, marks: map<Key, real>, done: set<Key>, k: Key, gain: real)
    requires k in b.positions && k in marks && k !in done
    requires gain == (marks[k] - b.positions[k].avg) * b.positions[k].qty
    ensures SumOver(done + {k}, OpenGains(b, marks)) == SumOver(done, OpenGains(b, marks)) + gain
  {
    SumOverInsert(done, OpenGains(b, marks), k);
    hide SumOver;
  }

  class RedisPositionRepository {
    var positions: map<Key, Position>
    var index: set<Key>
    var hwm: map<Key, real>
    var dedupe: set<TradeKey>
    var trades: map<TradeKey, Trade>
    var tradeIndex: map<Key, map<TradeId, int>>
    var tradeSymbols: set<Key>
    var marks: map<Key, real>
    var pnl: map<Market, Pnl>
    var dlq: seq<DlqEntry>
    /** Pushed on the left, popped from the right. */
    var queue: seq<Payload>

    constructor ()
      ensures View() == EMPTY && queue == []
    {
      positions, index, hwm := map[], {}, map[];
      dedupe, trades, tradeIndex, tradeSymbols := {}, map[], map[], {};
      marks, pnl, dlq, queue := map[], map[], [], [];
    }

    ghost function View(): Ledger
      reads this
    {
      Ledger(Portfolio(positions, index, hwm), Journal(dedupe, trades, tradeIndex, tradeSymbols), marks, pnl, dlq)
    }

    method TradeExists(id: TradeKey) returns (exists_: bool)
      ensures exists_ <==> id in View().journal.dedupe
    {
      exists_ := id in dedupe;
    }

    /** A missing hash reads as `None`; callers then use zeros. */
    method GetPosition(k: Key) returns (p: Option<Position>)
      ensures (if p.Some? then p.value else Position(0.0, 0.0, 0.0)) == PositionAt(View().portfolio, k)
    {
      p := if k in positions then Some(positions[k]) else None;
    }

    method SavePosition(k: Key, p: Position)
      modifies this`positions, this`index, this`hwm
      ensures View() == old(View()).(portfolio := FillLedger.SavePosition(old(View()).portfolio, k, p))
    {
      if p.qty == 0.0 {
        positions := positions - {k};
        index := index - {k};
        return;
      }
      var isNew := k !in positions;
      positions := positions[k := p];
      index := index + {k};
      if isNew {
        hwm := hwm[k := p.avg];
      }
    }

    /** Files the trade under its id; false when the id was already on file. */
    method RecordTrade(f: Fill, realized: real) returns (inserted: bool)
      modifies this`dedupe, this`trades, this`tradeIndex, this`tradeSymbols
      ensures inserted <==> TradeKeyOf(f) !in old(View()).journal.dedupe
      ensures View() == if inserted
                        then old(View()).(journal := FillLedger.RecordTrade(old(View()).journal, f, realized))
                        else old(View())
    {
      if TradeKeyOf(f) in dedupe {
        return false;
      }
      dedupe := dedupe + {TradeKeyOf(f)};
      var ts := TsMs(f.ts);
      trades := trades[TradeKeyOf(f) := Trade(f.symbol, f.side, f.qty, f.price, realized, ts, f.fee)];
      var k := KeyOf(f);
      var scores := if k in tradeIndex then tradeIndex[k] else map[];
      tradeIndex := tradeIndex[k := scores[IdOf(f) := ts]];
      tradeSymbols := tradeSymbols + {k};
      return true;
    }

    method UpdatePnl(m: Market, delta: real)
      modifies this`pnl
      ensures View() == old(View()).(pnl := AddRealized(old(View()).pnl, m, delta))
    {
      var current := PnlAt(pnl, m);
      pnl := pnl[m := Pnl(current.realized + delta, current.unrealized)];
    }

    method SetMarkPrice(k: Key, price: real)
      modifies this`marks
      ensures View() == Step(old(View()), MarkEvent(k, price))
    {
      marks := marks[k := price];
    }

    /** Adds up the open gains, walking the index in whatever order Redis returns it. */
    method SumOpenGains(m: Market) returns (unrealized: real)
      ensures unrealized == Unrealized(View().portfolio, View().marks, m)
    {
      unrealized := 0.0;
      var todo := set k | k in index && k.market == m;
      ghost var b, done := View().portfolio, {};
      NothingAdded(OpenGains(b, marks));
      hide SumOver, OpenGains;
      while todo != {}
        invariant Marked(b, marks, m) <= todo + done && todo !! done
        invariant forall k :: k in todo ==> k in index && k.market == m
        invariant done <= Marked(b, marks, m)
        invariant unrealized == SumOver(done, OpenGains(b, marks))
        decreases todo
      {
        var k :| k in todo;
        todo := todo - {k};
        if k in positions && k in marks {
          var gain := (marks[k] - positions[k].avg) * positions[k].qty;
          AddGain(b, marks, done, k, gain);
          unrealized := unrealized + gain;
          done := done + {k};
        }
      }
      assert done == Marked(b, marks, m);
    }

    method RecalcUnrealized(m: Market) returns (unrealized: real)
      modifies this`pnl
      ensures View() == Recalc(old(View()), m)
      ensures unrealized == Unrealized(View().portfolio, View().marks, m)
    {
      unrealized := SumOpenGains(m);
      pnl := pnl[m := Pnl(PnlAt(pnl, m).realized, unrealized)];
    }

    method PushFillDlq(f: Fill, reason: Reason)
      modifies this`dlq
      ensures View() == old(View()).(dlq := [Failed(f, reason)] + old(View()).dlq)
    {
      dlq := [Failed(f, reason)] + dlq;
    }

    method PushFill(f: Fill)
      modifies this`queue
      ensures queue == [Queued(f)] + old(queue)
    {
      queue := [Queued(f)] + queue;
    }

    method RequeueFill(f: Fill)
      modifies this`queue
      ensures queue == [Queued(f.(retry := f.retry + 1))] + old(queue)
    {
      queue := [Queued(f.(retry := f.retry + 1))] + queue;
    }

    /** Takes the oldest entry; text that does not parse goes to the dead letters. */
    method PopFill() returns (r: Option<Fill>)
      modifies this`queue, this`dlq
      ensures old(queue) == [] ==> r == None && queue == [] && dlq == old(dlq)
      ensures old(queue) != [] ==>
        var e := old(queue)[|old(queue)| - 1];
        && queue == old(queue)[..|old(queue)| - 1]
        && (if e.Queued? then r == Some(e.fill) && dlq == old(dlq)
            else r == None && dlq == [Unparsed(e.raw)] + old(dlq))
    {
      if queue == [] {
        return None;
      }
      var e := queue[|queue| - 1];
      queue := queue[..|queue| - 1];
      match e
      case Queued(f) => return Some(f);
      case Garbled(raw) =>
        dlq := [Unparsed(raw)] + dlq;
        return None;
    }
  }

  class PositionEngine {
    const repo: RedisPositionRepository

    constructor (repo: RedisPositionRepository)
      ensures this.repo == repo
    {
      this.repo := repo;
    }

    /** `apply_fill`. `fault` says where, if anywhere, an exception cuts the call off. */
    method ApplyFill(f: Fill, fault: Fault) returns (out: Outcome)
      modifies repo
      ensures (repo.View(), out) == FillLedger.ApplyFill(old(repo.View()), f, fault)
      ensures repo.queue == old(repo.queue)
    {
      if fault == AtRead {
        return Raised;
      }
      var known := repo.TradeExists(TradeKeyOf(f));
      if known {
        return Duplicate;
      }
      var found := repo.GetPosition(KeyOf(f));
      var p := if found.Some? then found.value else Position(0.0, 0.0, 0.0);
      if f.side == Sell && SellQty(f, p) <= 0.0 {
        repo.PushFillDlq(f, SellWithoutPosition);
        return NoPosition;
      }
      var delta := RealizedDelta(f, p);
      var inserted := repo.RecordTrade(f, delta);
      if fault == AfterRecord || DivisionByZero(f, p) {
        return Raised;
      }
      out := Book(f, p, fault);
    }

    /** The writes behind the trade record: position, realized PnL, mark, unrealized PnL. */
    method Book(f: Fill, p: Position, fault: Fault) returns (out: Outcome)
      requires !DivisionByZero(f, p)
      modifies repo
      ensures (repo.View(), out) == BookFill(old(repo.View()), f, p, fault)
      ensures repo.queue == old(repo.queue)
    {
      repo.SavePosition(KeyOf(f), NextPosition(f, p));
      if fault == AfterSave {
        return Raised;
      }
      if f.side == Sell {
        repo.UpdatePnl(f.market, RealizedDelta(f, p));
      }
      if fault == AfterPnl {
        return Raised;
      }
      repo.SetMarkPrice(KeyOf(f), f.price);
      if fault == AfterMark {
        return Raised;
      }
      var unrealized := repo.RecalcUnrealized(f.market);
      if fault == AfterRecalc {
        return Raised;
      }
      return Applied(if f.side == Sell then Some(RealizedDelta(f, p)) else None);
    }
  }
}
