/** What a stored shadow row says: a trade of the signal's cash, closed at the first recorded price
    at which the websocket monitor, on the coin settings, would have let go. */
module ShadowRows {
  import opened Common
  import opened MarkHistory
  import opened ExitRule
  import opened Shadow

  /** The websocket monitor's rule for the signal as a position: its own stop and take percentages
      where it has them, else three and fifteen percent, and the coin defaults for the rest. */
  function LiveVerdict(s: Snapshot, mark: real, high: real, nowMs: int): Option<Verdict> {
    var stop := if s.stopPct.Some? then s.stopPct.value else 0.03;
    var take := if s.takePct.Some? then s.takePct.value else 0.15;
    WsExit(Holding(s.entry, s.tsMs, None, None), mark, Some(high),
           Settings(Some(stop), Some(take), Some(0.04), Some(3600), Some(14400), Some(600), Some(0.01),
                    Some(0.03), Some(0.05), None, true), nowMs)
  }

  lemma {:induction false} ReplayIsLive(s: Snapshot, mark: real, high: real, nowMs: int)
    ensures PollExit(Position(s), mark, Some(high), ShadowSettings(s), nowMs) == LiveVerdict(s, mark, high, nowMs)
  {
    CopiesAgree(Position(s), mark, Some(high), ShadowSettings(s), nowMs);
    hide PollExit, WsExit;
  }

  /** The highest price of the first `n` ticks, the entry included. */
  ghost predicate IsHigh(path: seq<Tick>, entry: real, n: nat, high: real)
    requires n <= |path|
  {
    && high >= entry && (forall i :: 0 <= i < n ==> high >= path[i].price)
    && (high == entry || exists i :: 0 <= i < n && high == path[i].price)
  }

  lemma {:induction false} HwmIsHigh(path: seq<Tick>, entry: real, n: nat)
    requires n <= |path|
    ensures IsHigh(path, entry, n, HwmAfter(path, entry, n))
  {
    if n > 0 {
      HwmIsHigh(path, entry, n - 1);
    }
  }

  lemma {:induction false} FirstExitIsFirst(h: Holding, s: Settings, path: seq<Tick>, entry: real, i: nat)
    requires i <= |path|
    ensures var r := FirstExit(h, s, path, HwmAfter(path, entry, i), i);
      && (forall n :: i <= n < (if r.Some? then r.value.index else |path|) ==>
            PollExit(h, path[n].price, Some(HwmAfter(path, entry, n + 1)), s, path[n].ts) == None)
      && (r.Some? ==>
            PollExit(h, r.value.tick.price, Some(HwmAfter(path, entry, r.value.index + 1)), s, r.value.tick.ts)
            == Some(r.value.verdict))
    decreases |path| - i
  {
    hide PollExit;
    if i < |path| {
      assert HwmAfter(path, entry, i + 1) == Max(HwmAfter(path, entry, i), path[i].price);
      FirstExitIsFirst(h, s, path, entry, i + 1);
    }
  }

  /** The live rule fires at tick `n` of the path. */
  ghost predicate FiresAt(s: Snapshot, path: seq<Tick>, n: nat, v: Verdict)
    requires n < |path|
  {
    exists high :: IsHigh(path, s.entry, n + 1, high) && LiveVerdict(s, path[n].price, high, path[n].ts) == Some(v)
  }

  ghost predicate SilentAt(s: Snapshot, path: seq<Tick>, n: nat)
    requires n < |path|
  {
    exists high :: IsHigh(path, s.entry, n + 1, high) && LiveVerdict(s, path[n].price, high, path[n].ts) == None
  }

  /** The reason stored names the rule that fired. */
  ghost predicate Names(reason: Reason, v: Verdict) {
    && (reason.ByTrailingStop? <==> v.TrailingStop?) && (reason.ByStopLoss? <==> v.StopLoss?)
    && (reason.ByTakeProfit? <==> v.TakeProfit?) && (reason.ByEarlyExit? <==> v.EarlyExit?)
    && (reason.ByStagnation? <==> v.StagnantExit?) && (reason.ByTimeLimit? <==> v.TimeLimit?)
  }

  /** The trade in money and seconds. */
  ghost predicate Trades(row: Row, s: Snapshot) {
    && row.signalId == s.signalId && row.symbol == s.symbol && row.signalTs == s.tsMs
    && s.entry * (1.0 + row.pnlPct) == row.exitPrice
    && (s.sizeCash > 0.0 ==> row.qty * s.entry == s.sizeCash && row.pnlCash == row.qty * (row.exitPrice - s.entry))
    && (s.sizeCash <= 0.0 ==> row.qty == 0.0 && row.pnlCash == 0.0)
    && (row.exitTs >= s.tsMs ==> 1000 * row.holdSec <= row.exitTs - s.tsMs < 1000 * row.holdSec + 1000)
    && (row.exitTs < s.tsMs ==> row.holdSec == 0)
  }

  lemma {:induction false} CashTells(cash: real, entry: real, exit: real)
    requires entry > 0.0
    ensures var qty, pct := cash / entry, (exit - entry) / entry;
      qty * entry == cash && cash * pct == qty * (exit - entry) && entry * (1.0 + pct) == exit
  {
    var qty, pct := cash / entry, (exit - entry) / entry;
    assert qty * entry == cash && pct * entry == exit - entry;
    assert cash * pct == qty * entry * pct == qty * (pct * entry);
  }

  lemma {:induction false} MadeRowTrades(
      s: Snapshot, exitTs: int, exitPrice: real, reason: Reason, detail: Option<Verdict>, observed: nat)
    requires s.entry > 0.0
    ensures Trades(MakeRow(s, exitTs, exitPrice, reason, detail, observed), s)
  {
    CashTells(s.sizeCash, s.entry, exitPrice);
  }

  /** A row on a path: it counts the ticks up to its exit, the live rule is silent at all before,
      and the exit is what fires, or the end of a path that the longest holding time has passed. */
  ghost predicate IsRowOf(row: Row, s: Snapshot, path: seq<Tick>) {
    && 0 < row.observedTicks <= |path| && Trades(row, s)
    && var n := row.observedTicks - 1;
    && row.exitTs == path[n].ts && row.exitPrice == path[n].price
    && (forall i :: 0 <= i < n ==> SilentAt(s, path, i))
    && match row.detail
       case Some(v) => FiresAt(s, path, n, v) && Names(row.reason, v)
       case None => row.reason == EndOfData && n == |path| - 1 && SilentAt(s, path, n)
                    && path[n].ts - s.tsMs >= 14400000
  }

  lemma {:induction false} QuietIsSilent(s: Snapshot, path: seq<Tick>, n: nat)
    requires n < |path|
    requires PollExit(Position(s), path[n].price, Some(HwmAfter(path, s.entry, n + 1)), ShadowSettings(s), path[n].ts)
        == None
    ensures SilentAt(s, path, n)
  {
    hide PollExit, LiveVerdict, IsHigh, HwmAfter, ShadowSettings;
    HwmIsHigh(path, s.entry, n + 1);
    ReplayIsLive(s, path[n].price, HwmAfter(path, s.entry, n + 1), path[n].ts);
  }

  lemma {:induction false} LoudFires(s: Snapshot, path: seq<Tick>, n: nat, v: Verdict)
    requires n < |path|
    requires PollExit(Position(s), path[n].price, Some(HwmAfter(path, s.entry, n + 1)), ShadowSettings(s), path[n].ts)
        == Some(v)
    ensures FiresAt(s, path, n, v)
  {
    hide PollExit, LiveVerdict, IsHigh, HwmAfter, ShadowSettings;
    HwmIsHigh(path, s.entry, n + 1);
    ReplayIsLive(s, path[n].price, HwmAfter(path, s.entry, n + 1), path[n].ts);
  }

  lemma {:induction false} HitRow(s: Snapshot, path: seq<Tick>, hit: Hit)
    requires s.entry > 0.0 && hit.index < |path| && hit.tick == path[hit.index]
    requires FiresAt(s, path, hit.index, hit.verdict) && forall i :: 0 <= i < hit.index ==> SilentAt(s, path, i)
    ensures IsRowOf(
        MakeRow(s, hit.tick.ts, hit.tick.price, Normalize(hit.verdict), Some(hit.verdict), hit.index + 1), s, path)
  {
    MadeRowTrades(s, hit.tick.ts, hit.tick.price, Normalize(hit.verdict), Some(hit.verdict), hit.index + 1);
    hide FiresAt, SilentAt, Trades;
  }

  lemma {:induction false} EndRow(s: Snapshot, path: seq<Tick>)
    requires s.entry > 0.0 && path != [] && path[|path| - 1].ts - s.tsMs >= 14400000
    requires forall i :: 0 <= i < |path| ==> SilentAt(s, path, i)
    ensures IsRowOf(MakeRow(s, path[|path| - 1].ts, path[|path| - 1].price, EndOfData, None, |path|), s, path)
  {
    MadeRowTrades(s, path[|path| - 1].ts, path[|path| - 1].price, EndOfData, None, |path|);
    hide FiresAt, SilentAt, Trades;
  }

  /** A row comes of a usable signal with at least ten recorded prices, exactly when the live rule
      fires on one of them or the last is four hours later; and then it tells that trade. */
  lemma {:induction false} ReplayTells(s: Snapshot, path: seq<Tick>)
    ensures match Replay(s, path)
      case Some(r) =>
        && s.signalId != "" && s.symbol != "" && s.tsMs > 0 && s.entry > 0.0 && |path| >= 10 && IsRowOf(r, s, path)
      case None =>
        || s.signalId == "" || s.symbol == "" || s.tsMs <= 0 || s.entry <= 0.0 || |path| < 10
        || ((forall i :: 0 <= i < |path| ==> SilentAt(s, path, i)) && path[|path| - 1].ts - s.tsMs < 14400000)
  {
    if Usable(s) && |path| >= MIN_POINTS {
      assert HwmAfter(path, s.entry, 0) == s.entry;
      FirstExitIsFirst(Position(s), ShadowSettings(s), path, s.entry, 0);
      var first := FirstExit(Position(s), ShadowSettings(s), path, s.entry, 0);
      hide FirstExit, PollExit, HwmAfter, ShadowSettings, Position, FiresAt, SilentAt, IsRowOf, MakeRow;
      forall i | 0 <= i < (if first.Some? then first.value.index else |path|) ensures SilentAt(s, path, i) {
        QuietIsSilent(s, path, i);
      }
      if first.Some? {
        LoudFires(s, path, first.value.index, first.value.verdict);
        HitRow(s, path, first.value);
      } else if path[|path| - 1].ts - s.tsMs >= 14400000 {
        EndRow(s, path);
      }
    }
  }

  lemma {:induction false} ParsedCount(raw: seq<Entry>, e: Entry)
    requires e.Mark?
    ensures multiset(Parsed(raw))[e] == multiset(raw)[e]
  {
    if raw == [] {
    } else {
      ParsedCount(raw[..|raw| - 1], e);
      assert raw == raw[..|raw| - 1] + [raw[|raw| - 1]];
    }
  }

  lemma {:induction false} TicksCount(parsed: seq<Entry>, t: Tick)
    requires forall e :: e in parsed ==> e.Mark?
    ensures multiset(Ticks(parsed))[t] == multiset(parsed)[Mark(t.ts, t.price)]
  {
    if parsed == [] {
    } else {
      var front, last := parsed[..|parsed| - 1], parsed[|parsed| - 1];
      TicksCount(front, t);
      assert parsed == front + [last] && Ticks(parsed) == Ticks(front) + [Tick(last.ts, last.price)];
    }
  }

  lemma {:induction false} SinceCount(ticks: seq<Tick>, tsMs: int, t: Tick)
    ensures multiset(Since(ticks, tsMs))[t] == if t.ts >= tsMs then multiset(ticks)[t] else 0
  {
    if ticks == [] {
    } else {
      SinceCount(ticks[..|ticks| - 1], tsMs, t);
      assert ticks == ticks[..|ticks| - 1] + [ticks[|ticks| - 1]];
    }
  }

  /** The path holds the readable prices from the signal's time on, each as often as recorded, in
      the order of their times. */
  lemma {:induction false} PathTells(raw: seq<Entry>, tsMs: int)
    ensures var path := Since(History(raw), tsMs);
      && (forall i, j :: 0 <= i < j < |path| ==> path[i].ts <= path[j].ts)
      && (forall t :: multiset(path)[t] == if t.ts >= tsMs then multiset(raw)[Mark(t.ts, t.price)] else 0)
  {
    var ticks := Ticks(Parsed(raw));
    SortSorts(ticks, TickTs());
    SortKeepsElements(ticks, TickTs());
    SinceSorted(History(raw), tsMs);
    forall t {:trigger multiset(Since(History(raw), tsMs))[t]}
      ensures multiset(Since(History(raw), tsMs))[t] == if t.ts >= tsMs then multiset(raw)[Mark(t.ts, t.price)] else 0
    {
      SinceCount(History(raw), tsMs, t);
      TicksCount(Parsed(raw), t);
      ParsedCount(raw, Mark(t.ts, t.price));
    }
    hide Since, Parsed;
  }

  lemma {:induction false} SinceSorted(ticks: seq<Tick>, tsMs: int)
    requires SortedBy(ticks, TickTs())
    ensures SortedBy(Since(ticks, tsMs), TickTs())
  {
    if ticks == [] {
    } else {
      var front, last := ticks[..|ticks| - 1], ticks[|ticks| - 1];
      SinceSorted(front, tsMs);
      forall t | t in Since(front, tsMs) ensures t.ts <= last.ts {
        SinceMembers(front, tsMs, t);
        var i :| 0 <= i < |front| && front[i] == t;
        assert TickTs()(ticks[i]) <= TickTs()(ticks[|ticks| - 1]);
      }
    }
  }

  // ----- The replay and the monitor -------------------------------------------

  /** What the websocket monitor decides about the same position where no override is set: it passes
      its own stop and take percentages and so never looks at the position's. */
  function MonitorVerdict(s: Snapshot, mark: real, high: real, nowMs: int): Option<Verdict> {
    WsExit(Holding(s.entry, s.tsMs, s.stopPct, s.takePct), mark, Some(high),
           Settings(Some(0.03), Some(0.15), Some(0.04), Some(3600), Some(14400), Some(600), Some(0.01),
                    Some(0.03), Some(0.05), None, true), nowMs)
  }

  /** The shadow rule decides as the monitor would, whatever the price, mark and time. */
  ghost predicate ShadowsMonitor(s: Snapshot) {
    forall mark, high, nowMs :: high >= s.entry ==>
      LiveVerdict(s, mark, high, nowMs) == MonitorVerdict(s, mark, high, nowMs)
  }

  lemma {:induction false} AtTheStop(s: Snapshot)
    requires s.entry > 0.0 && s.stopPct.Some? && s.stopPct.value != 0.03
    ensures LiveVerdict(s, Less(s.entry, 0.03), s.entry, s.tsMs)
        != MonitorVerdict(s, Less(s.entry, 0.03), s.entry, s.tsMs)
  {
    var stop := s.stopPct.value;
    LessTightens(s.entry, 0.03, if stop < 0.03 then stop else 0.03);
    LessTightens(s.entry, if stop > 0.03 then stop else 0.03, 0.03);
    hide HeldSec, More, GainPct;
  }

  lemma {:induction false} AtTheTake(s: Snapshot)
    requires s.entry > 0.0 && s.takePct.Some? && s.takePct.value != 0.15 && (s.stopPct.None? || s.stopPct == Some(0.03))
    ensures var mark := More(s.entry, 0.15);
      LiveVerdict(s, mark, mark, s.tsMs) != MonitorVerdict(s, mark, mark, s.tsMs)
  {
    var take, mark := s.takePct.value, More(s.entry, 0.15);
    assert More(s.entry, take) - mark == s.entry * (take - 0.15);
    SameSign(s.entry, take - 0.15);
    SameSign(s.entry, 0.15 - take);
    assert s.entry * (0.15 - take) == -(s.entry * (take - 0.15));
    hide HeldSec, GainPct;
  }

  /** The replay is the monitor's rule exactly for signals without percentages of their own, or with
      the defaults for them: live, a signal's percentages never count. */
  lemma {:induction false} ShadowsMonitorIff(s: Snapshot)
    requires s.entry > 0.0
    ensures ShadowsMonitor(s) <==>
      (s.stopPct.None? || s.stopPct == Some(0.03)) && (s.takePct.None? || s.takePct == Some(0.15))
  {
    if s.stopPct.Some? && s.stopPct.value != 0.03 {
      AtTheStop(s);
    } else if s.takePct.Some? && s.takePct.value != 0.15 {
      AtTheTake(s);
      MoreSign(s.entry, 0.15);
    }
    hide LiveVerdict, MonitorVerdict;
  }

  // ----- Snapshots and lists --------------------------------------------------

  /** A field that the payload gives, or else the one on file, or else nothing. */
  ghost predicate Laid<T>(given: Option<T>, filed: Option<T>, absent: T, now: T) {
    now == match given
           case Some(v) => v
           case None => match filed case Some(v) => v case None => absent
  }

  /** What a save leaves. Signals of other markets and without an id are not saved. A first save
      without a symbol or an entry price never gives a row, one without cash a row over nothing. */
  lemma {:induction false} SaveTells(st: Store, p: Payload, raw: seq<Entry>)
    ensures !p.isCoin || p.signalId == "" ==> Save(st, p) == st
    ensures p.isCoin && p.signalId != "" ==>
      var id, st' := p.signalId, Save(st, p);
      var filed := if id in st.snapshots then Some(st.snapshots[id]) else None;
      && st'.rows == st.rows && st'.history == st.history
      && st'.snapshots.Keys == st.snapshots.Keys + {id}
      && (forall other :: other in st.snapshots && other != id ==> st'.snapshots[other] == st.snapshots[other])
      && var s := st'.snapshots[id];
      && s.signalId == id && s.isCoin && s.tsMs == p.tsMs
      && Laid(if p.symbol == "" then None else Some(p.symbol), if filed.Some? then Some(filed.value.symbol) else None,
              "", s.symbol)
      && Laid(p.entry, if filed.Some? then Some(filed.value.entry) else None, 0.0, s.entry)
      && Laid(p.sizeCash, if filed.Some? then Some(filed.value.sizeCash) else None, 0.0, s.sizeCash)
      && Laid(p.stopPct, if filed.Some? then Some(filed.value.stopPct) else None, None, s.stopPct)
      && Laid(p.takePct, if filed.Some? then Some(filed.value.takePct) else None, None, s.takePct)
      && (filed.None? && (p.symbol == "" || p.entry.None?) ==> Evaluate(s, raw).None?)
  {
    hide Since, History, FirstExit;
  }

  /** LTRIM 0 (cap - 1): the entries up to that position stay; a negative one counts from the end. */
  lemma {:induction false} LtrimKeeps(list: seq<Entry>, cap: int, i: nat)
    ensures Kept(|list|, cap) <= |list|
    ensures i < Kept(|list|, cap) <==> i < |list| && i <= (if cap - 1 >= 0 then cap - 1 else |list| + (cap - 1))
  {}

  /** A pushed price stands first, and those before it follow as far as they are kept. */
  lemma {:induction false} PushTells(st: Store, symbol: string, entry: Entry, cap: int, i: nat)
    requires cap > 0
    ensures var list, list' := HistoryOf(st, symbol), HistoryOf(Push(st, symbol, entry, cap), symbol);
      && |list'| == (if |list| + 1 < cap then |list| + 1 else cap) && list'[0] == entry
      && (0 < i < |list'| ==> list'[i] == list[i - 1])
    ensures forall other :: other != symbol ==> HistoryOf(Push(st, symbol, entry, cap), other) == HistoryOf(st, other)
  {}
}
