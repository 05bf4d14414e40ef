/** Shadow evaluation: signals are replayed on the recorded prices that followed them, and
    the virtual exit is stored for good. */
module Shadow {
  import opened Common
  import opened MarkHistory
  import opened ExitRule

  const MIN_POINTS := 10

  /** What the replay reads of a signal snapshot, ids already stripped of blanks. */
  datatype Snapshot = Snapshot(
    signalId: string, symbol: string, isCoin: bool, tsMs: int,
    entry: real, sizeCash: real, stopPct: Option<real>, takePct: Option<real>)

  datatype Reason = ByTrailingStop | ByStopLoss | ByTakeProfit | ByEarlyExit | ByStagnation | ByTimeLimit | EndOfData

  function Normalize(v: Verdict): (r: Reason)
    ensures r != EndOfData
  {
    match v
    case TrailingStop(_, _) => ByTrailingStop
    case StopLoss(_, _) => ByStopLoss
    case TakeProfit(_, _) => ByTakeProfit
    case EarlyExit(_, _) => ByEarlyExit
    case StagnantExit(_, _) => ByStagnation
    case TimeLimit(_, _) => ByTimeLimit
  }

  datatype Row = Row(
    signalId: string, symbol: string, signalTs: int, exitTs: int, exitPrice: real, qty: real,
    pnlCash: real, pnlPct: real, reason: Reason, detail: Option<Verdict>, holdSec: int, observedTicks: nat,
    entry: real, sizeCash: real, stopPct: Option<real>, takePct: Option<real>)

  /** The coin settings, with the signal's own stop and take percentages when readable. */
  function ShadowSettings(s: Snapshot): Settings {
    Settings(Some(Pick(s.stopPct, None, COIN_STOP)), Some(Pick(s.takePct, None, COIN_TAKE)), Some(COIN_TRAIL),
             Some(COIN_TIME_LIMIT), Some(COIN_TIME_LIMIT_MAX), Some(COIN_EARLY_SEC), Some(COIN_EARLY_PCT),
             Some(COIN_TIGHT), Some(COIN_TIGHT_TRIGGER), None, true)
  }

  function Position(s: Snapshot): Holding { Holding(s.entry, s.tsMs, None, None) }

  function MakeRow(s: Snapshot, exitTs: int, exitPrice: real, reason: Reason, detail: Option<Verdict>,
      observed: nat): Row
    requires s.entry > 0.0
  {
    var pnlPct := (exitPrice - s.entry) / s.entry;
    var hold := (exitTs - s.tsMs) / 1000;
    var qty := if s.sizeCash > 0.0 then s.sizeCash / s.entry else 0.0;
    var pnlCash := if s.sizeCash > 0.0 then s.sizeCash * pnlPct else 0.0;
    Row(s.signalId, s.symbol, s.tsMs, exitTs, exitPrice, qty, pnlCash, pnlPct, reason, detail,
        if hold > 0 then hold else 0, observed,
        s.entry, s.sizeCash, s.stopPct, s.takePct)
  }

  predicate Usable(s: Snapshot) { s.signalId != "" && s.symbol != "" && s.tsMs > 0 && s.entry > 0.0 }

  /** The outcome of the replay on a path: the first live exit, or the end of the data once
      the longest holding time has been seen, or nothing yet. */
  function Replay(s: Snapshot, path: seq<Tick>): Option<Row> {
    if !Usable(s) || |path| < MIN_POINTS then None
    else
      match FirstExit(Position(s), ShadowSettings(s), path, s.entry, 0)
      case Some(hit) => Some(MakeRow(s, hit.tick.ts, hit.tick.price, Normalize(hit.verdict), Some(hit.verdict),
          hit.index + 1))
      case None =>
        var last := path[|path| - 1];
        if last.ts < s.tsMs + COIN_TIME_LIMIT_MAX * 1000 then None
        else Some(MakeRow(s, last.ts, last.price, EndOfData, None, |path|))
  }

  function Evaluate(s: Snapshot, raw: seq<Entry>): Option<Row> { Replay(s, Since(History(raw), s.tsMs)) }

  /** `_load_price_path`: a comprehension over the parsed history. */
  method LoadPricePath(raw: seq<Entry>, tsMs: int) returns (path: seq<Tick>)
    ensures path == Since(History(raw), tsMs)
  {
    var ticks := ParseMarkHist(raw);
    path := Since(ticks, tsMs);
  }

  /** `evaluate_signal_snapshot`: the loop raises the high-water mark tick by tick and stops
      at the first verdict. */
  method EvaluateSignalSnapshot(s: Snapshot, raw: seq<Entry>) returns (row: Option<Row>)
    ensures row == Evaluate(s, raw)
  {
    if !Usable(s) {
      return None;
    }
    var path := LoadPricePath(raw, s.tsMs);
    if |path| < MIN_POINTS {
      return None;
    }
    var hwm := s.entry;
    ghost var first := FirstExit(Position(s), ShadowSettings(s), path, s.entry, 0);
    var n := 0;
    while n < |path|
      invariant 0 <= n <= |path|
      invariant FirstExit(Position(s), ShadowSettings(s), path, hwm, n) == first
    {
      var tick := path[n];
      if tick.price > hwm {
        hwm := tick.price;
      }
      var detail := PollExit(Position(s), tick.price, Some(hwm), ShadowSettings(s), tick.ts);
      if detail.Some? {
        return Some(MakeRow(s, tick.ts, tick.price, Normalize(detail.value), detail, n + 1));
      }
      n := n + 1;
    }
    var last := path[|path| - 1];
    if last.ts < s.tsMs + COIN_TIME_LIMIT_MAX * 1000 {
      return None;
    }
    return Some(MakeRow(s, last.ts, last.price, EndOfData, None, |path|));
  }

  // ----- Verdicts are final ---------------------------------------------------

  /** A path without an exit ends with a tick at which the rule did not fire. */
  lemma {:induction false} NoExitAtEnd(h: Holding, s: Settings, ticks: seq<Tick>, hwm: real, i: nat)
      returns (high: real)
    requires i < |ticks| && FirstExit(h, s, ticks, hwm, i) == None
    ensures PollExit(h, ticks[|ticks| - 1].price, Some(high), s, ticks[|ticks| - 1].ts) == None
    decreases |ticks| - i
  {
    high := Max(hwm, ticks[i].price);
    if i + 1 < |ticks| {
      high := NoExitAtEnd(h, s, ticks, high, i + 1);
    }
  }

  /** With a positive last price and a signal time in milliseconds the end-of-data branch is
      dead code: a tick at or past the longest holding time has already exited. */
  lemma {:induction false} EndOfDataUnreachable(s: Snapshot, path: seq<Tick>)
    requires s.tsMs > MS_EPOCH && Replay(s, path).Some? && path[|path| - 1].price > 0.0
    ensures Replay(s, path).value.reason != EndOfData
  {
    if FirstExit(Position(s), ShadowSettings(s), path, s.entry, 0) == None {
      var high := NoExitAtEnd(Position(s), ShadowSettings(s), path, s.entry, 0);
      var last := path[|path| - 1];
      if last.ts >= s.tsMs + COIN_TIME_LIMIT_MAX * 1000 {
        ExitByDeadline(Position(s), last.price, Some(high), ShadowSettings(s), last.ts);
      }
    }
  }

  ghost predicate LaterTicks(path: seq<Tick>, more: seq<Tick>) {
    forall a, b :: a in path && b in more ==> a.ts < b.ts
  }

  ghost predicate Final(s: Snapshot, path: seq<Tick>) {
    forall more :: LaterTicks(path, more) ==> Replay(s, path + more) == Replay(s, path)
  }

  lemma {:induction false} ExitIsFinal(s: Snapshot, path: seq<Tick>, more: seq<Tick>)
    requires Replay(s, path).Some? && Replay(s, path).value.reason != EndOfData
    ensures Replay(s, path + more) == Replay(s, path)
  {
    FirstExitStable(Position(s), ShadowSettings(s), path, more, s.entry, 0);
  }

  /** A returned row is final, whatever prices follow, exactly when it is not the
      end-of-data row; one more tick always changes that one. */
  lemma {:induction false} FinalIffNotEndOfData(s: Snapshot, path: seq<Tick>)
    requires Replay(s, path).Some?
    requires forall a :: a in path ==> a.ts <= path[|path| - 1].ts
    ensures Final(s, path) <==> Replay(s, path).value.reason != EndOfData
  {
    if Replay(s, path).value.reason != EndOfData {
      forall more | LaterTicks(path, more) ensures Replay(s, path + more) == Replay(s, path) {
        ExitIsFinal(s, path, more);
      }
    } else {
      var last := path[|path| - 1];
      var next := [Tick(last.ts + 1, last.price)];
      assert LaterTicks(path, next);
      FirstExitOfExtension(Position(s), ShadowSettings(s), path, next, s.entry, 0);
      assert Replay(s, path + next) != Replay(s, path);
    }
  }

  /** After a path without exit, an extension can only exit in its new part. */
  lemma {:induction false} FirstExitOfExtension(h: Holding, s: Settings, ticks: seq<Tick>, more: seq<Tick>,
      hwm: real, i: nat)
    requires i <= |ticks| && FirstExit(h, s, ticks, hwm, i) == None
    ensures var r := FirstExit(h, s, ticks + more, hwm, i); r.Some? ==> r.value.index >= |ticks|
    decreases |ticks| - i
  {
    if i < |ticks| {
      FirstExitOfExtension(h, s, ticks, more, Max(hwm, ticks[i].price), i + 1);
    }
  }

  // ----- The shadow ledger over time ------------------------------------------

  /** Snapshots by signal id, price lists by symbol, stored rows by signal id. */
  datatype Store = Store(snapshots: map<string, Snapshot>, history: map<string, seq<Entry>>, rows: map<string, Row>)

  /** The entries kept under a symbol: its price list, or what was trimmed off its end. */
  function ListOf(lists: map<string, seq<Entry>>, symbol: string): seq<Entry> {
    if symbol in lists then lists[symbol] else []
  }

  function HistoryOf(st: Store, symbol: string): seq<Entry> { ListOf(st.history, symbol) }

  /** A signal as it is saved. A field without text is `None`, or the empty symbol; the
      percentages may also be given and unreadable. */
  datatype Payload = Payload(
    isCoin: bool, signalId: string, symbol: string, tsMs: int,
    entry: Option<real>, sizeCash: Option<real>, stopPct: Option<Option<real>>, takePct: Option<Option<real>>)

  /** HSET on the snapshot hash: given fields replace stored ones, the others stay. */
  function Overlay(st: Store, p: Payload): Snapshot {
    var base :=
      if p.signalId in st.snapshots then st.snapshots[p.signalId]
      else Snapshot(p.signalId, "", true, 0, 0.0, 0.0, None, None);
    Snapshot(
      p.signalId, if p.symbol != "" then p.symbol else base.symbol, true, p.tsMs,
      Pick(p.entry, None, base.entry), Pick(p.sizeCash, None, base.sizeCash),
      Pick(p.stopPct, None, base.stopPct), Pick(p.takePct, None, base.takePct))
  }

  predicate Saves(p: Payload) { p.isCoin && p.signalId != "" }

  function Save(st: Store, p: Payload): Store {
    if Saves(p) then st.(snapshots := st.snapshots[p.signalId := Overlay(st, p)]) else st
  }

  /** How many entries LTRIM 0 (cap - 1) keeps; a last index below zero counts from the end. */
  function Kept(size: nat, cap: int): nat {
    var upTo := if cap > 0 then cap else size + cap;
    if upTo <= 0 then 0 else if upTo < size then upTo else size
  }

  function Push(st: Store, symbol: string, entry: Entry, cap: int): Store {
    var pushed := [entry] + HistoryOf(st, symbol);
    st.(history := st.history[symbol := pushed[..Kept(|pushed|, cap)]])
  }

  datatype ScanStats = ScanStats(scanned: nat, completed: nat, pending: nat, existing: nat, invalid: nat)

  predicate Completes(st: Store, id: string) {
    && id !in st.rows && id in st.snapshots && st.snapshots[id].isCoin
    && Evaluate(st.snapshots[id], HistoryOf(st, st.snapshots[id].symbol)).Some?
  }

  /** What one id contributes to a scan. */
  function ScanOne(st: Store, id: string): Store {
    if Completes(st, id)
    then st.(rows := st.rows[id := Evaluate(st.snapshots[id], HistoryOf(st, st.snapshots[id].symbol)).value])
    else st
  }

  function ScanAll(st: Store, ids: seq<string>): Store {
    if ids == [] then st else ScanOne(ScanAll(st, ids[..|ids| - 1]), ids[|ids| - 1])
  }

  class ShadowLedger {
    var snapshots: map<string, Snapshot>
    var history: map<string, seq<Entry>>
    var rows: map<string, Row>

    function View(): Store
      reads this
    {
      Store(snapshots, history, rows)
    }

    /** `_save_signal_snapshot_to`. */
    method SaveSnapshot(p: Payload)
      modifies this`snapshots
      ensures View() == Save(old(View()), p)
    {
      if !p.isCoin || p.signalId == "" {
        return;
      }
      var s := Overlay(View(), p);
      snapshots := snapshots[p.signalId := s];
    }

    /** LPUSH and LTRIM of the price feed, which go out in one pipeline. */
    method PushPrice(symbol: string, entry: Entry, cap: int)
      modifies this`history
      ensures View() == Push(old(View()), symbol, entry, cap)
    {
      var pushed := [entry] + (if symbol in history then history[symbol] else []);
      history := history[symbol := pushed[..Kept(|pushed|, cap)]];
    }

    /** `_evaluate_pending_signals` over the ids the index returned. Every id is counted in
        exactly one class, and `completed` is the number of rows that are new. */
    method EvaluatePending(ids: seq<string>) returns (stats: ScanStats)
      modifies this`rows
      ensures View() == ScanAll(old(View()), ids)
      ensures stats.scanned == |ids| == stats.completed + stats.pending + stats.existing + stats.invalid
      ensures |rows| == |old(rows)| + stats.completed
      ensures forall id :: id in old(rows) ==> id in rows && rows[id] == old(rows)[id]
    {
      stats := ScanStats(0, 0, 0, 0, 0);
      for n := 0 to |ids|
        invariant View() == ScanAll(old(View()), ids[..n])
        invariant stats.scanned == n == stats.completed + stats.pending + stats.existing + stats.invalid
        invariant |rows| == |old(rows)| + stats.completed
        invariant forall id :: id in old(rows) ==> id in rows && rows[id] == old(rows)[id]
      {
        assert ids[..n + 1][..n] == ids[..n];
        var id := ids[n];
        stats := stats.(scanned := stats.scanned + 1);
        if id in rows {
          stats := stats.(existing := stats.existing + 1);
        } else if id !in snapshots || !snapshots[id].isCoin {
          stats := stats.(invalid := stats.invalid + 1);
        } else {
          var symbol := snapshots[id].symbol;
          var row := EvaluateSignalSnapshot(snapshots[id], if symbol in history then history[symbol] else []);
          if row == None {
            stats := stats.(pending := stats.pending + 1);
          } else {
            rows := rows[id := row.value];
            stats := stats.(completed := stats.completed + 1);
          }
        }
      }
      assert ids[..|ids|] == ids;
    }
  }

  // ----- Runs of saves, prices and scans --------------------------------------

  datatype Event =
    | Price(symbol: string, entry: Entry)
    | Take(payload: Payload)
    | Scan(ids: seq<string>)

  /** The store, and for every symbol the entries its price list has lost to the cap. */
  datatype World = World(store: Store, lost: map<string, seq<Entry>>)

  function Recorded(w: World, symbol: string): seq<Entry> { HistoryOf(w.store, symbol) + ListOf(w.lost, symbol) }

  function Step(w: World, e: Event, cap: int): World {
    match e
    case Price(symbol, entry) =>
      var pushed := [entry] + HistoryOf(w.store, symbol);
      World(Push(w.store, symbol, entry, cap), w.lost[symbol := pushed[Kept(|pushed|, cap)..] + ListOf(w.lost, symbol)])
    case Take(p) => w.(store := Save(w.store, p))
    case Scan(ids) => w.(store := ScanAll(w.store, ids))
  }

  function Run(w: World, es: seq<Event>, cap: int): World {
    if es == [] then w else Step(Run(w, es[..|es| - 1], cap), es[|es| - 1], cap)
  }

  /** Market data as the feed writes it: positive prices, each later than all before it;
      unreadable entries may turn up anywhere. Signal times are in milliseconds. */
  ghost predicate Proper(w: World, e: Event) {
    match e
    case Price(symbol, entry) => (entry.Mark? ==> entry.price > 0.0) && Later([entry], Recorded(w, symbol))
    case Take(p) => p.tsMs > MS_EPOCH
    case Scan(_) => true
  }

  ghost predicate ProperRun(w: World, es: seq<Event>, cap: int) {
    es != [] ==> var front := es[..|es| - 1]; ProperRun(w, front, cap) && Proper(Run(w, front, cap), es[|es| - 1])
  }

  /** What proper events establish, whatever becomes of the rows. */
  ghost predicate Sound(w: World) {
    && (forall symbol :: GoodMarks(Recorded(w, symbol)))
    && (forall id :: id in w.store.snapshots ==>
        w.store.snapshots[id].tsMs > MS_EPOCH && w.store.snapshots[id].signalId == id)
  }

  ghost predicate GoodMarks(raw: seq<Entry>) { Chronological(raw) && forall e :: e in raw && e.Mark? ==> e.price > 0.0 }

  ghost predicate RowCurrent(w: World, id: string) {
    && id in w.store.rows && id in w.store.snapshots
    && Evaluate(w.store.snapshots[id], Recorded(w, w.store.snapshots[id].symbol)) == Some(w.store.rows[id])
  }

  /** Every stored row is the replay of its snapshot as it reads today, on every price ever
      recorded. */
  ghost predicate Current(w: World) {
    forall id :: id in w.store.rows ==> RowCurrent(w, id)
  }

  /** The parts of a snapshot that a row is made from. */
  predicate SameTerms(a: Snapshot, b: Snapshot) {
    && a.signalId == b.signalId && a.symbol == b.symbol && a.tsMs == b.tsMs
    && a.entry == b.entry && a.sizeCash == b.sizeCash && a.stopPct == b.stopPct && a.takePct == b.takePct
  }

  /** No readable price from the signal on has been trimmed away. */
  ghost predicate Intact(w: World, s: Snapshot) {
    forall e :: e in ListOf(w.lost, s.symbol) && e.Mark? ==> e.ts < s.tsMs
  }

  /** A save must not change the terms of a signal that has its row; a scan must not
      complete a signal whose prices have begun to fall off the list. */
  ghost predicate Harmless(w: World, e: Event) {
    var st := w.store;
    match e
    case Price(_, _) => true
    case Take(p) => Saves(p) && p.signalId in st.rows ==>
        p.signalId in st.snapshots && SameTerms(Overlay(st, p), st.snapshots[p.signalId])
    case Scan(ids) => forall id :: id in ids && Completes(st, id) ==> Intact(w, st.snapshots[id])
  }

  // ----- Prices ---------------------------------------------------------------

  /** A later price never changes a row that the history already decides. */
  lemma {:induction false} LaterPriceKeepsRow(s: Snapshot, entry: Entry, raw: seq<Entry>)
    requires s.tsMs > MS_EPOCH && GoodMarks(raw) && Later([entry], raw)
    requires Evaluate(s, raw).Some?
    ensures Evaluate(s, [entry] + raw) == Evaluate(s, raw)
  {
    var path := Since(History(raw), s.tsMs);
    HistoryExtends([entry], raw);
    SinceAppend(History(raw), History([entry]), s.tsMs);
    RowIsExit(s, raw);
    ExitIsFinal(s, path, Since(History([entry]), s.tsMs));
  }

  /** On good market data no row comes from the end-of-data branch. */
  lemma {:induction false} RowIsExit(s: Snapshot, raw: seq<Entry>)
    requires s.tsMs > MS_EPOCH && GoodMarks(raw) && Evaluate(s, raw).Some?
    ensures Evaluate(s, raw).value.reason != EndOfData
  {
    var path := Since(History(raw), s.tsMs);
    var last := path[|path| - 1];
    SinceMembers(History(raw), s.tsMs, last);
    HistoryMembers(raw, last);
    ParsedMembers(raw, Mark(last.ts, last.price));
    EndOfDataUnreachable(s, path);
  }

  /** Dropping the oldest entries leaves a row as it is exactly when none of them is from the
      signal's time or later: the row counts the prices up to the exit. */
  lemma {:induction false} TrimKeepsRowIff(s: Snapshot, kept: seq<Entry>, dropped: seq<Entry>)
    requires s.tsMs > MS_EPOCH && GoodMarks(kept + dropped) && Evaluate(s, kept).Some?
    ensures Evaluate(s, kept + dropped) == Evaluate(s, kept) <==> forall e :: e in dropped && e.Mark? ==> e.ts < s.tsMs
  {
    ChronologicalParts(kept, dropped);
    HistoryExtends(kept, dropped);
    SinceAppend(History(dropped), History(kept), s.tsMs);
    var before, path := Since(History(dropped), s.tsMs), Since(History(kept), s.tsMs);
    NothingSince(dropped, s.tsMs);
    RowIsExit(s, kept);
    if before == [] {
      assert before + path == path;
    } else {
      SinceStrict(kept + dropped, s.tsMs);
      LongerPathOtherRow(s, before, path);
    }
  }

  lemma {:induction false} NothingSince(raw: seq<Entry>, ts: int)
    ensures Since(History(raw), ts) == [] <==> forall e :: e in raw && e.Mark? ==> e.ts < ts
  {
    var path := Since(History(raw), ts);
    if path != [] {
      SinceMembers(History(raw), ts, path[0]);
      HistoryMembers(raw, path[0]);
      ParsedMembers(raw, Mark(path[0].ts, path[0].price));
      assert Mark(path[0].ts, path[0].price) in raw;
    } else {
      forall e | e in raw && e.Mark? ensures e.ts < ts {
        ParsedMembers(raw, e);
        HistoryMembers(raw, Tick(e.ts, e.price));
        SinceMembers(History(raw), ts, Tick(e.ts, e.price));
      }
    }
  }

  /** With earlier ticks in front, the same exit would come after more ticks. */
  lemma {:induction false} LongerPathOtherRow(s: Snapshot, before: seq<Tick>, path: seq<Tick>)
    requires StrictTs(before + path) && before != []
    requires Replay(s, path).Some? && Replay(s, path).value.reason != EndOfData
    ensures Replay(s, before + path) != Replay(s, path)
  {
    var hit := FirstExit(Position(s), ShadowSettings(s), path, s.entry, 0);
    var all := FirstExit(Position(s), ShadowSettings(s), before + path, s.entry, 0);
    assert path[hit.value.index] == (before + path)[|before| + hit.value.index];
    if all.Some? && all.value.index == hit.value.index {
      assert all.value.tick.ts < hit.value.tick.ts;
    }
  }

  // ----- Steps ----------------------------------------------------------------

  lemma {:induction false} SplitPush(entry: Entry, list: seq<Entry>, lost: seq<Entry>, k: nat)
    requires k <= |list| + 1
    ensures var pushed := [entry] + list; pushed[..k] + (pushed[k..] + lost) == [entry] + (list + lost)
  {
    var pushed := [entry] + list;
    assert pushed[..k] + pushed[k..] == pushed;
    assert pushed[..k] + (pushed[k..] + lost) == pushed[..k] + pushed[k..] + lost;
  }

  lemma {:induction false} KeptFits(size: nat, cap: int)
    ensures Kept(size, cap) <= size
  {}

  lemma {:induction false} RecordedGrows(w: World, symbol: string, entry: Entry, cap: int, other: string)
    ensures Recorded(Step(w, Price(symbol, entry), cap), other) ==
            (if other == symbol then [entry] else []) + Recorded(w, other)
  {
    var list, lost := HistoryOf(w.store, symbol), ListOf(w.lost, symbol);
    KeptFits(|[entry] + list|, cap);
    if other == symbol {
      SplitPush(entry, list, lost, Kept(|[entry] + list|, cap));
    } else {
      assert [] + Recorded(w, other) == Recorded(w, other);
    }
    hide Kept;
  }

  lemma {:induction false} StepKeepsSound(w: World, e: Event, cap: int)
    requires Sound(w) && Proper(w, e)
    ensures Sound(Step(w, e, cap))
  {
    match e
    case Price(symbol, entry) =>
      forall other ensures GoodMarks(Recorded(Step(w, e, cap), other)) {
        RecordedGrows(w, symbol, entry, cap, other);
        GoodMarksGrow(entry, Recorded(w, other));
        hide GoodMarks, Step, Recorded, Later;
        assert [] + Recorded(w, other) == Recorded(w, other);
      }
    case Take(p) =>
      hide GoodMarks;
      assert forall symbol :: Recorded(Step(w, e, cap), symbol) == Recorded(w, symbol);
    case Scan(ids) =>
      hide GoodMarks;
      ScanKeepsInputs(w.store, ids);
      assert forall symbol :: Recorded(Step(w, e, cap), symbol) == Recorded(w, symbol);
  }

  lemma {:induction false} GoodMarksGrow(entry: Entry, raw: seq<Entry>)
    requires GoodMarks(raw)
    ensures (entry.Mark? ==> entry.price > 0.0) && Later([entry], raw) ==> GoodMarks([entry] + raw)
  {
    if (entry.Mark? ==> entry.price > 0.0) && Later([entry], raw) {
      ChronologicalGrows(entry, raw);
    }
  }

  lemma {:induction false} ScanKeepsInputs(st: Store, ids: seq<string>)
    ensures ScanAll(st, ids).snapshots == st.snapshots && ScanAll(st, ids).history == st.history
  {
    if ids == [] {
    } else {
      ScanKeepsInputs(st, ids[..|ids| - 1]);
    }
  }

  /** The rows after a scan: those from before, and the ids it completed. */
  lemma {:induction false} ScanRows(st: Store, ids: seq<string>, id: string)
    ensures var rows := ScanAll(st, ids).rows;
      && (id in rows <==> id in st.rows || (id in ids && Completes(st, id)))
      && (id in st.rows ==> rows[id] == st.rows[id])
      && (id in rows && id !in st.rows ==>
          Some(rows[id]) == Evaluate(st.snapshots[id], HistoryOf(st, st.snapshots[id].symbol)))
  {
    if ids == [] {
    } else {
      var front, last := ids[..|ids| - 1], ids[|ids| - 1];
      ScanRows(st, front, id);
      ScanKeepsInputs(st, front);
      assert id in ids <==> id in front || id == last;
      hide Evaluate;
    }
  }

  lemma {:induction false} PriceKeepsCurrent(w: World, symbol: string, entry: Entry, cap: int)
    requires Sound(w) && Current(w) && Proper(w, Price(symbol, entry))
    ensures Current(Step(w, Price(symbol, entry), cap))
  {
    var w' := Step(w, Price(symbol, entry), cap);
    forall id | id in w'.store.rows ensures RowCurrent(w', id) {
      assert RowCurrent(w, id);
      var s := w.store.snapshots[id];
      RecordedGrows(w, symbol, entry, cap, s.symbol);
      assert GoodMarks(Recorded(w, s.symbol));
      assert [] + Recorded(w, s.symbol) == Recorded(w, s.symbol);
      hide Evaluate, Later, GoodMarks, Recorded;
      if s.symbol == symbol {
        LaterPriceKeepsRow(s, entry, Recorded(w, symbol));
      }
    }
  }

  /** A row repeats the terms it was made from. */
  lemma {:induction false} RowTellsTerms(a: Snapshot, rawA: seq<Entry>, b: Snapshot, rawB: seq<Entry>)
    requires Evaluate(a, rawA).Some? && Evaluate(a, rawA) == Evaluate(b, rawB)
    ensures SameTerms(a, b)
  {
    hide FirstExit, Since, History;
  }

  lemma {:induction false} SameTermsSameRow(a: Snapshot, b: Snapshot, raw: seq<Entry>)
    requires SameTerms(a, b)
    ensures Evaluate(a, raw) == Evaluate(b, raw)
  {
    hide FirstExit, Since, History;
    var path := Since(History(raw), a.tsMs);
    assert FirstExit(Position(a), ShadowSettings(a), path, a.entry, 0)
        == FirstExit(Position(b), ShadowSettings(b), path, b.entry, 0);
    if Replay(a, path).Some? {
      var r, q := Replay(a, path).value, Replay(b, path).value;
      assert r == q;
    }
  }

  lemma {:induction false} TakeLeavesOthers(w: World, p: Payload, cap: int, id: string)
    requires RowCurrent(w, id) && !(Saves(p) && p.signalId == id)
    ensures RowCurrent(Step(w, Take(p), cap), id)
  {
    hide Evaluate, Overlay;
  }

  lemma {:induction false} TakenRowIff(w: World, p: Payload, cap: int)
    requires RowCurrent(w, p.signalId) && Saves(p)
    ensures RowCurrent(Step(w, Take(p), cap), p.signalId) <==>
        SameTerms(Overlay(w.store, p), w.store.snapshots[p.signalId])
  {
    var a, b := Overlay(w.store, p), w.store.snapshots[p.signalId];
    var rawA, rawB := Recorded(w, a.symbol), Recorded(w, b.symbol);
    hide Overlay;
    assert Recorded(Step(w, Take(p), cap), a.symbol) == rawA;
    if SameTerms(a, b) {
      SameTermsSameRow(a, b, rawA);
    }
    hide Recorded;
    if Evaluate(a, rawA) == Evaluate(b, rawB) {
      RowTellsTerms(a, rawA, b, rawB);
    }
    hide Evaluate, SameTerms;
  }

  lemma {:induction false} TakeKeepsCurrentIff(w: World, p: Payload, cap: int)
    requires Current(w)
    ensures Current(Step(w, Take(p), cap)) <==> Harmless(w, Take(p))
  {
    var w', id := Step(w, Take(p), cap), p.signalId;
    if Saves(p) && id in w.store.rows {
      TakenRowIff(w, p, cap);
    }
    hide Evaluate, Recorded, SameTerms, Overlay;
    forall other | other in w.store.rows && !(Saves(p) && other == id) ensures RowCurrent(w', other) {
      TakeLeavesOthers(w, p, cap, other);
    }
    hide RowCurrent;
  }

  lemma {:induction false} ScanKeepsCurrentIff(w: World, ids: seq<string>, cap: int)
    requires Sound(w) && Current(w)
    ensures Current(Step(w, Scan(ids), cap)) <==> Harmless(w, Scan(ids))
  {
    var st, w' := w.store, Step(w, Scan(ids), cap);
    ScanKeepsInputs(st, ids);
    assert forall symbol :: Recorded(w', symbol) == Recorded(w, symbol);
    forall id ensures id in w'.store.rows ==>
        (RowCurrent(w', id) <==> (id !in st.rows && Completes(st, id) ==> Intact(w, st.snapshots[id])))
    {
      ScanRows(st, ids, id);
      if id in w'.store.rows && id !in st.rows {
        var s := st.snapshots[id];
        assert GoodMarks(Recorded(w, s.symbol));
        TrimKeepsRowIff(s, HistoryOf(st, s.symbol), ListOf(w.lost, s.symbol));
      }
      hide Evaluate, GoodMarks;
      assert id in st.rows ==> RowCurrent(w, id);
    }
    forall id | id in ids && Completes(st, id) ensures id in w'.store.rows && id !in st.rows {
      ScanRows(st, ids, id);
    }
    forall id | id in w'.store.rows && id !in st.rows ensures id in ids && Completes(st, id) {
      ScanRows(st, ids, id);
    }
  }

  lemma {:induction false} StepKeepsCurrentIff(w: World, e: Event, cap: int)
    requires Sound(w) && Current(w) && Proper(w, e)
    ensures Current(Step(w, e, cap)) <==> Harmless(w, e)
  {
    hide Sound, Current, Step;
    match e
    case Price(symbol, entry) => PriceKeepsCurrent(w, symbol, entry, cap);
    case Take(p) => TakeKeepsCurrentIff(w, p, cap);
    case Scan(ids) => ScanKeepsCurrentIff(w, ids, cap);
  }

  // ----- Whole runs -----------------------------------------------------------

  ghost predicate AlwaysCurrent(w: World, es: seq<Event>, cap: int) {
    Current(Run(w, es, cap)) && (es != [] ==> AlwaysCurrent(w, es[..|es| - 1], cap))
  }

  ghost predicate AlwaysHarmless(w: World, es: seq<Event>, cap: int) {
    es != [] ==>
      var front := es[..|es| - 1]; AlwaysHarmless(w, front, cap) && Harmless(Run(w, front, cap), es[|es| - 1])
  }

  lemma {:induction false} RunKeepsSound(w: World, es: seq<Event>, cap: int)
    requires Sound(w) && ProperRun(w, es, cap)
    ensures Sound(Run(w, es, cap))
  {
    if es == [] {
    } else {
      var front, e := es[..|es| - 1], es[|es| - 1];
      RunKeepsSound(w, front, cap);
      hide Proper, Sound, Step;
      StepKeepsSound(Run(w, front, cap), e, cap);
    }
  }

  /** Over every run the stored rows stay current throughout exactly when no save changes the
      terms of a signal that has its row and no scan completes a signal whose prices have
      begun to fall off the list. */
  lemma {:induction false} RowsStayCurrentIff(w: World, es: seq<Event>, cap: int)
    requires Sound(w) && Current(w) && ProperRun(w, es, cap)
    ensures AlwaysCurrent(w, es, cap) <==> AlwaysHarmless(w, es, cap)
  {
    if es == [] {
    } else {
      var front, e := es[..|es| - 1], es[|es| - 1];
      RunKeepsSound(w, front, cap);
      RowsStayCurrentIff(w, front, cap);
      hide Proper, Sound, Current, Step, Harmless;
      if AlwaysCurrent(w, front, cap) {
        StepKeepsCurrentIff(Run(w, front, cap), e, cap);
      }
    }
  }

  // ----- Both ways to go stale ------------------------------------------------

  const EMPTY := World(Store(map[], map[], map[]), map[])

  /** `n` prices of 50, a second apart, after a signal at 100: the first of them stops it out. */
  function Crash(symbol: string, tsMs: int, n: nat): seq<Event> {
    if n == 0 then [] else Crash(symbol, tsMs, n - 1) + [Price(symbol, Mark(tsMs + 1000 * n, 50.0))]
  }

  function CrashMarks(tsMs: int, n: nat): (r: seq<Entry>)
    ensures |r| == n
    ensures forall i :: 0 <= i < n ==> r[i] == Mark(tsMs + 1000 * (n - i), 50.0)
  {
    if n == 0 then [] else [Mark(tsMs + 1000 * n, 50.0)] + CrashMarks(tsMs, n - 1)
  }

  function Signal(id: string, symbol: string, tsMs: int): Payload {
    Payload(true, id, symbol, tsMs, Some(100.0), Some(5000.0), None, None)
  }

  /** The list holds the newest of the entries recorded, as many as the cap admits. */
  ghost predicate HoldsNewest(w: World, symbol: string, es: seq<Entry>, cap: int) {
    HistoryOf(w.store, symbol) == es[..Kept(|es|, cap)] && Recorded(w, symbol) == es
  }

  lemma {:induction false} PushOnCut(w: World, symbol: string, entry: Entry, es: seq<Entry>, cap: int)
    requires cap > 0 && HoldsNewest(w, symbol, es, cap)
    ensures HoldsNewest(Step(w, Price(symbol, entry), cap), symbol, [entry] + es, cap)
  {
    RecordedGrows(w, symbol, entry, cap, symbol);
    hide Recorded;
  }

  function TakeAndCrash(id: string, symbol: string, tsMs: int, n: nat): seq<Event> {
    [Take(Signal(id, symbol, tsMs))] + Crash(symbol, tsMs, n)
  }

  lemma {:induction false} CrashStep(id: string, symbol: string, tsMs: int, n: nat, cap: int)
    requires n > 0
    ensures Run(EMPTY, TakeAndCrash(id, symbol, tsMs, n), cap)
         == var e := Price(symbol, Mark(tsMs + 1000 * n, 50.0));
            Step(Run(EMPTY, TakeAndCrash(id, symbol, tsMs, n - 1), cap), e, cap)
  {
    var es := TakeAndCrash(id, symbol, tsMs, n);
    assert es[..|es| - 1] == TakeAndCrash(id, symbol, tsMs, n - 1);
    hide Step;
  }

  /** No row yet, the one snapshot, the newest prices in the list and the others lost. */
  ghost predicate Crashed(w: World, id: string, symbol: string, tsMs: int, n: nat, cap: int) {
    && w.store.rows == map[] && w.store.snapshots == map[id := Overlay(EMPTY.store, Signal(id, symbol, tsMs))]
    && HoldsNewest(w, symbol, CrashMarks(tsMs, n), cap)
  }

  lemma {:induction false} CrashStart(id: string, symbol: string, tsMs: int, cap: int)
    requires id != "" && cap > 0
    ensures Crashed(Run(EMPTY, TakeAndCrash(id, symbol, tsMs, 0), cap), id, symbol, tsMs, 0, cap)
  {
    var take := [Take(Signal(id, symbol, tsMs))];
    assert TakeAndCrash(id, symbol, tsMs, 0) == take && take[..0] == [];
    assert Run(EMPTY, take, cap) == Step(EMPTY, take[0], cap);
    hide Run;
  }

  lemma {:induction false} CrashContinues(w: World, id: string, symbol: string, tsMs: int, n: nat, cap: int)
    requires cap > 0 && Crashed(w, id, symbol, tsMs, n, cap)
    ensures Crashed(Step(w, Price(symbol, Mark(tsMs + 1000 * (n + 1), 50.0)), cap), id, symbol, tsMs, n + 1, cap)
  {
    PushOnCut(w, symbol, Mark(tsMs + 1000 * (n + 1), 50.0), CrashMarks(tsMs, n), cap);
    hide HoldsNewest, Overlay, Kept;
  }

  lemma {:induction false} CrashRuns(id: string, symbol: string, tsMs: int, n: nat, cap: int)
    requires id != "" && cap > 0
    ensures Crashed(Run(EMPTY, TakeAndCrash(id, symbol, tsMs, n), cap), id, symbol, tsMs, n, cap)
  {
    hide Step, Run, Crashed, TakeAndCrash;
    if n == 0 {
      CrashStart(id, symbol, tsMs, cap);
    } else {
      CrashRuns(id, symbol, tsMs, n - 1, cap);
      CrashStep(id, symbol, tsMs, n, cap);
      CrashContinues(Run(EMPTY, TakeAndCrash(id, symbol, tsMs, n - 1), cap), id, symbol, tsMs, n - 1, cap);
    }
  }

  /** The replay of the crash, on any newest part of it that is long enough, exits at the
      first price of that part. */
  lemma {:induction false} CrashExits(s: Snapshot, n: nat, k: nat)
    requires Usable(s) && s.entry == 100.0 && s.stopPct == None && s.tsMs > MS_EPOCH && MIN_POINTS <= k <= n
    ensures Evaluate(s, CrashMarks(s.tsMs, n)[..k]).Some?
  {
    var raw := CrashMarks(s.tsMs, n)[..k];
    CrashPath(s.tsMs, raw, n);
    var path := Since(History(raw), s.tsMs);
    assert path[0].price == 50.0;
  }

  lemma {:induction false} CrashPath(tsMs: int, raw: seq<Entry>, n: nat)
    requires |raw| <= n && raw == CrashMarks(tsMs, n)[..|raw|]
    ensures var path := Since(History(raw), tsMs); |path| == |raw| && forall t :: t in path ==> t.price == 50.0
  {
    if raw == [] {
    } else {
      var front, last := raw[1..], raw[0];
      assert raw == [last] + front;
      CrashPath(tsMs, front, n - 1);
      forall o | o in Parsed(front) ensures o.ts < last.ts {
        ParsedMembers(front, o);
      }
      assert Parsed([last][..0]) == [];
      HistoryExtends([last], front);
      SinceAppend(History(front), History([last]), tsMs);
    }
  }

  function CrashScan(id: string, symbol: string, tsMs: int, n: nat): seq<Event> {
    TakeAndCrash(id, symbol, tsMs, n) + [Scan([id])]
  }

  /** The scan after the crash stores the row, on whatever part of the prices is left. */
  lemma {:induction false} CrashScanRows(id: string, symbol: string, tsMs: int, n: nat, cap: int)
    requires id != "" && symbol != "" && tsMs > MS_EPOCH && MIN_POINTS <= n && MIN_POINTS <= cap
    ensures var w, s := Run(EMPTY, CrashScan(id, symbol, tsMs, n), cap), Overlay(EMPTY.store, Signal(id, symbol, tsMs));
      && w.store.rows.Keys == {id} && w.store.snapshots == map[id := s] && Recorded(w, symbol) == CrashMarks(tsMs, n)
      && Some(w.store.rows[id]) == Evaluate(s, CrashMarks(tsMs, n)[..Kept(n, cap)])
  {
    var es, s := CrashScan(id, symbol, tsMs, n), Overlay(EMPTY.store, Signal(id, symbol, tsMs));
    assert es[..|es| - 1] == TakeAndCrash(id, symbol, tsMs, n) && es[|es| - 1] == Scan([id]);
    CrashRuns(id, symbol, tsMs, n, cap);
    CrashExits(s, n, Kept(n, cap));
    ScanOneId(Run(EMPTY, es[..|es| - 1], cap).store, id);
    hide Evaluate;
  }

  lemma {:induction false} ScanOneId(st: Store, id: string)
    ensures ScanAll(st, [id]) == ScanOne(st, id)
  {
    assert [id][..0] == [];
    hide ScanOne;
  }

  /** The newest `k` of the crash prices give the row of all of them only if they are all. */
  lemma {:induction false} CutCrashOtherRow(s: Snapshot, n: nat, k: nat)
    requires Usable(s) && s.entry == 100.0 && s.stopPct == None && s.tsMs > MS_EPOCH && MIN_POINTS <= k <= n
    ensures Evaluate(s, CrashMarks(s.tsMs, n)) == Evaluate(s, CrashMarks(s.tsMs, n)[..k]) <==> k == n
  {
    var es := CrashMarks(s.tsMs, n);
    CrashExits(s, n, k);
    assert es == es[..k] + es[k..];
    TrimKeepsRowIff(s, es[..k], es[k..]);
    if k < n {
      assert es[k..][0].Mark? && es[k..][0].ts > s.tsMs;
    }
    hide Evaluate;
  }

  /** That row is current exactly when the cap has not cut the list. */
  lemma {:induction false} TrimmedScanStoresWrongRow(id: string, symbol: string, tsMs: int, n: nat, cap: int)
    requires id != "" && symbol != "" && tsMs > MS_EPOCH && MIN_POINTS <= n && MIN_POINTS <= cap
    ensures Current(Run(EMPTY, CrashScan(id, symbol, tsMs, n), cap)) <==> n <= cap
  {
    CrashScanRows(id, symbol, tsMs, n, cap);
    CutCrashOtherRow(Overlay(EMPTY.store, Signal(id, symbol, tsMs)), n, Kept(n, cap));
    hide Evaluate, Run, Recorded;
  }

  /** Two saves of one id, as the pre-consensus runner makes them for an evaluation it sees
      twice, leave a row that is not the replay of its snapshot. */
  lemma {:induction false} SecondSaveMakesRowStale(id: string, symbol: string, tsMs: int, n: nat, later: int, cap: int)
    requires id != "" && symbol != "" && tsMs > MS_EPOCH && MIN_POINTS <= n <= cap && later > tsMs
    ensures var es := CrashScan(id, symbol, tsMs, n);
      Current(Run(EMPTY, es, cap)) && !Current(Run(EMPTY, es + [Take(Signal(id, symbol, later))], cap))
  {
    var es, again := CrashScan(id, symbol, tsMs, n), Take(Signal(id, symbol, later));
    CrashScanRows(id, symbol, tsMs, n, cap);
    TrimmedScanStoresWrongRow(id, symbol, tsMs, n, cap);
    assert (es + [again])[..|es|] == es;
    TakeKeepsCurrentIff(Run(EMPTY, es, cap), again.payload, cap);
    hide Evaluate, Current, Step;
  }
}
