/** The live momentum check of the signal generator: `mark_hist` is read from Redis in
    chunks, newest entry first, until an entry at or before the target time turns up. */
module HistoryScan {
  import opened Common
  import opened MarkHistory

  /** LRANGE with non-negative bounds: both ends inclusive, clipped to the list. */
  function Range(raw: seq<Entry>, first: nat, last: int): seq<Entry> {
    if first < |raw| && first <= last then raw[first..if last < |raw| then last + 1 else |raw|] else []
  }

  const FIVE_MINUTES := 5 * 60 * 1000
  const TWO_MINUTES := 2 * 60 * 1000

  /** How much of the list counts: its first `maxEntries` entries. */
  function Window(raw: seq<Entry>, maxEntries: int): seq<Entry> {
    if maxEntries <= 0 then [] else if maxEntries < |raw| then raw[..maxEntries] else raw
  }

  /** What the first `n` entries of the window hold. */
  ghost function ReadUpTo(raw: seq<Entry>, maxEntries: int, n: nat): seq<Entry>
    requires n <= |Window(raw, maxEntries)|
  {
    Parsed(Window(raw, maxEntries)[..n])
  }

  lemma {:induction false} WindowSize(raw: seq<Entry>, maxEntries: int)
    ensures |Window(raw, maxEntries)| <= |raw|
    ensures |Window(raw, maxEntries)| <= if maxEntries > 0 then maxEntries else 0
  {}

  /** Chunked loading stops early only right behind an entry that is old enough. */
  ghost predicate Loaded(raw: seq<Entry>, maxEntries: int, target: int, entries: seq<Entry>) {
    exists n :: 0 <= n <= |Window(raw, maxEntries)|
      && entries == ReadUpTo(raw, maxEntries, n)
      && (n == |Window(raw, maxEntries)|
          || (n > 0 && raw[n - 1].Mark? && raw[n - 1].ts <= target))
  }

  /** The inner loop: keep the entries that parse. */
  method ParseChunk(chunk: seq<Entry>) returns (parsed: seq<Entry>)
    ensures parsed == Parsed(chunk)
  {
    parsed := [];
    for i := 0 to |chunk|
      invariant parsed == Parsed(chunk[..i])
    {
      assert chunk[..i + 1][..i] == chunk[..i];
      if chunk[i].Mark? {
        parsed := parsed + [chunk[i]];
      }
    }
    assert chunk[..|chunk|] == chunk;
  }

  function ChunkEnd(start: nat, batchSize: int, maxEntries: int): int {
    if start + batchSize - 1 <= maxEntries - 1 then start + batchSize - 1 else maxEntries - 1
  }

  /** One chunk extends the part of the window read so far. */
  lemma ChunkExtends(raw: seq<Entry>, start: nat, batchSize: int, maxEntries: int)
    requires batchSize >= 1 && start < maxEntries && start <= |Window(raw, maxEntries)|
    ensures var chunk := Range(raw, start, ChunkEnd(start, batchSize, maxEntries));
      && start + |chunk| <= |Window(raw, maxEntries)| && |chunk| <= batchSize
      && ReadUpTo(raw, maxEntries, start + |chunk|) == ReadUpTo(raw, maxEntries, start) + Parsed(chunk)
      && (chunk != [] ==> raw[start + |chunk| - 1] == chunk[|chunk| - 1])
      && (|chunk| < batchSize ==> start + |chunk| == |Window(raw, maxEntries)|)
  {
    var chunk := Range(raw, start, ChunkEnd(start, batchSize, maxEntries));
    var window := Window(raw, maxEntries);
    assert window[..start + |chunk|] == window[..start] + chunk;
    ParsedAppend(window[..start], chunk);
  }

  /** Reading may end after `n` entries: at the end of the window or behind an old one. */
  lemma {:induction false} LoadedAfter(raw: seq<Entry>, maxEntries: int, target: int, n: nat)
    requires n <= |Window(raw, maxEntries)|
    requires n == |Window(raw, maxEntries)| || (n > 0 && raw[n - 1].Mark? && raw[n - 1].ts <= target)
    ensures Loaded(raw, maxEntries, target, ReadUpTo(raw, maxEntries, n))
  {
    hide ReadUpTo, Window;
  }

  /** `_load_mark_hist_until`. The source's loop has no exit for a batch size below one. */
  method LoadUntil(raw: seq<Entry>, target: int, batchSize: int, maxEntries: int)
    returns (parsed: seq<Entry>)
    requires batchSize >= 1
    ensures Loaded(raw, maxEntries, target, parsed)
  {
    parsed := [];
    var start := 0;
    WindowSize(raw, maxEntries);
    assert parsed == ReadUpTo(raw, maxEntries, 0);
    hide Range, Window, ChunkEnd, Loaded, ReadUpTo, Parsed;
    while start < maxEntries
      invariant 0 <= start <= |Window(raw, maxEntries)|
      invariant parsed == ReadUpTo(raw, maxEntries, start)
    {
      var chunk := Range(raw, start, ChunkEnd(start, batchSize, maxEntries));
      ChunkExtends(raw, start, batchSize, maxEntries);
      if chunk == [] {
        break;
      }
      var items := ParseChunk(chunk);
      parsed := parsed + items;
      var oldest := chunk[|chunk| - 1];
      if oldest.Mark? && oldest.ts <= target {
        LoadedAfter(raw, maxEntries, target, start + |chunk|);
        return;
      }
      if |chunk| < batchSize {
        LoadedAfter(raw, maxEntries, target, start + |chunk|);
        return;
      }
      start := start + batchSize;
    }
    LoadedAfter(raw, maxEntries, target, start);
  }

  /** The first entry at or before `target`, from position `i` on. */
  function FirstOld(entries: seq<Entry>, i: nat, target: int): Option<real>
    requires forall e :: e in entries ==> e.Mark?
    decreases |entries| - i
  {
    if i >= |entries| then None
    else if entries[i].ts <= target then Some(entries[i].price)
    else FirstOld(entries, i + 1, target)
  }

  /** The five-minute return over a list of parsed entries: the source's rule, stated on
      the entries themselves. */
  function LiveReturn(entries: seq<Entry>, now: int): Option<(real, real)>
    requires forall e :: e in entries ==> e.Mark?
  {
    if entries == [] || now - entries[0].ts > TWO_MINUTES then None
    else
      match FirstOld(entries, 1, now - FIVE_MINUTES)
      case None => None
      case Some(past) =>
        if past == 0.0 then None else Some(((entries[0].price - past) / past, entries[0].price))
  }

  /** The newest readable entry among the first `w`. */
  ghost predicate IsLatest(raw: seq<Entry>, w: int, i: int) {
    0 <= i < |raw| && i < w && raw[i].Mark? && forall k :: 0 <= k < i ==> raw[k].Malformed?
  }

  /** The newest readable entry behind position `i` that is no later than `target`. */
  ghost predicate IsFirstOld(raw: seq<Entry>, w: int, i: int, target: int, j: int) {
    && 0 <= j < |raw| && i < j && j < w && raw[j].Mark? && raw[j].ts <= target
    && forall k :: 0 <= k < j && i < k && raw[k].Mark? ==> raw[k].ts > target
  }

  /** A price of `past` and a return of `ret` since make `price`. */
  predicate Leads(past: real, ret: real, price: real) { past * (1.0 + ret) == price }

  /** The right answer, told by positions in the list: the newest readable entry is at most two
      minutes old, and the return leads to it from the newest one five minutes old or older. */
  ghost predicate Answers(raw: seq<Entry>, w: int, now: int, r: Option<(real, real)>) {
    match r
    case Some((ret, price)) =>
      exists i, j :: IsLatest(raw, w, i) && IsFirstOld(raw, w, i, now - 300000, j)
        && now - raw[i].ts <= 120000 && raw[j].price != 0.0
        && price == raw[i].price && Leads(raw[j].price, ret, price)
    case None =>
      forall i, j :: IsLatest(raw, w, i) && IsFirstOld(raw, w, i, now - 300000, j) ==>
        now - raw[i].ts > 120000 || raw[j].price == 0.0
  }

  /** `_get_live_ret_5m`: for every list and every batch size the chunked read decides exactly as
      one read of all of the first `maxEntries` entries would, and gives the right answer. */
  method GetLiveReturn(raw: seq<Entry>, now: int, batchSize: int, maxEntries: int)
    returns (r: Option<(real, real)>)
    requires batchSize >= 1
    ensures r == LiveReturn(Parsed(Window(raw, maxEntries)), now)
    ensures Answers(raw, maxEntries, now, r)
  {
    var target := now - FIVE_MINUTES;
    var entries := LoadUntil(raw, target, batchSize, maxEntries);
    EarlyStopIsHarmless(raw, maxEntries, now, entries);
    LiveReturnAnswers(raw, maxEntries, now);
    hide Loaded, Answers, Window, Parsed;
    if entries == [] {
      return None;
    }
    var latest := entries[0];
    if now - latest.ts > TWO_MINUTES {
      return None;
    }
    var past: Option<real> := None;
    var i := 1;
    while i < |entries|
      invariant 1 <= i <= |entries|
      invariant FirstOld(entries, 1, target) == FirstOld(entries, i, target)
    {
      if entries[i].ts <= target {
        past := Some(entries[i].price);
        break;
      }
      i := i + 1;
    }
    if past == None || past.value == 0.0 {
      return None;
    }
    return Some(((latest.price - past.value) / past.value, latest.price));
  }

  lemma {:induction false} FirstOldOfPrefix(a: seq<Entry>, b: seq<Entry>, i: nat, target: int)
    requires forall e :: e in a + b ==> e.Mark?
    requires forall e :: e in a ==> e.Mark?
    requires i < |a| && a[|a| - 1].ts <= target
    ensures FirstOld(a + b, i, target) == FirstOld(a, i, target)
    decreases |a| - i
  {
    if a[i].ts > target {
      FirstOldOfPrefix(a, b, i + 1, target);
    }
  }

  lemma LastParsed(raw: seq<Entry>)
    requires raw != [] && raw[|raw| - 1].Mark?
    ensures Parsed(raw) != [] && Parsed(raw)[|Parsed(raw)| - 1] == raw[|raw| - 1]
  {}

  lemma OldEntryDecides(a: seq<Entry>, b: seq<Entry>, now: int)
    requires forall e :: e in a + b ==> e.Mark?
    requires forall e :: e in a ==> e.Mark?
    requires a != [] && a[|a| - 1].ts <= now - FIVE_MINUTES
    ensures LiveReturn(a + b, now) == LiveReturn(a, now)
  {
    if |a| > 1 {
      FirstOldOfPrefix(a, b, 1, now - FIVE_MINUTES);
    }
  }

  /** What follows an old enough entry does not matter. */
  lemma {:induction false} OldEntryEndsSearch(window: seq<Entry>, n: nat, now: int)
    requires 0 < n <= |window| && window[n - 1].Mark? && window[n - 1].ts <= now - FIVE_MINUTES
    ensures LiveReturn(Parsed(window[..n]), now) == LiveReturn(Parsed(window), now)
  {
    assert window == window[..n] + window[n..];
    ParsedAppend(window[..n], window[n..]);
    LastParsed(window[..n]);
    hide LiveReturn;
    OldEntryDecides(Parsed(window[..n]), Parsed(window[n..]), now);
  }

  /** Stopping at an old enough entry loses nothing: either that entry answers the
      query, or it is the only one and already too stale to be the latest price. */
  lemma {:induction false} EarlyStopIsHarmless(raw: seq<Entry>, maxEntries: int, now: int, entries: seq<Entry>)
    requires Loaded(raw, maxEntries, now - FIVE_MINUTES, entries)
    requires forall e :: e in entries ==> e.Mark?
    ensures LiveReturn(entries, now) == LiveReturn(Parsed(Window(raw, maxEntries)), now)
  {
    var window, target := Window(raw, maxEntries), now - FIVE_MINUTES;
    assert window <= raw;
    hide Window, LiveReturn, Parsed;
    var n :| 0 <= n <= |window| && entries == ReadUpTo(raw, maxEntries, n)
      && (n == |window| || (n > 0 && raw[n - 1].Mark? && raw[n - 1].ts <= target));
    if n == |window| {
      assert window[..n] == window;
    } else {
      OldEntryEndsSearch(window, n, now);
    }
  }

  // ----- Positions in the list ------------------------------------------------

  lemma {:induction false} FirstOldShifts(e: Entry, rest: seq<Entry>, i: nat, target: int)
    requires e.Mark? && forall x :: x in rest ==> x.Mark?
    ensures FirstOld([e] + rest, i + 1, target) == FirstOld(rest, i, target)
    decreases |rest| - i
  {
    if i < |rest| {
      FirstOldShifts(e, rest, i + 1, target);
    }
  }

  /** Parsing keeps or drops the newest entry and goes on behind it. */
  lemma {:induction false} ParsedFromFront(raw: seq<Entry>)
    requires raw != []
    ensures Parsed(raw) == (if raw[0].Mark? then [raw[0]] else []) + Parsed(raw[1..])
  {
    assert raw == [raw[0]] + raw[1..];
    ParsedAppend([raw[0]], raw[1..]);
    assert Parsed([raw[0]]) == Parsed([]) + if raw[0].Mark? then [raw[0]] else [];
  }

  lemma {:induction false} ParsedEmpty()
    ensures Parsed([]) == []
  {}

  /** The first old entry of a parsed list and its position in the list itself. */
  lemma {:induction false} FirstOldAt(raw: seq<Entry>, target: int) returns (j: nat)
    ensures var past := FirstOld(Parsed(raw), 0, target);
      && (past.Some? ==> IsFirstOld(raw, |raw|, -1, target, j) && past == Some(raw[j].price))
      && (past.None? ==> forall k :: 0 <= k < |raw| && raw[k].Mark? ==> raw[k].ts > target)
    decreases |raw|
  {
    j := 0;
    hide Parsed;
    if raw == [] {
      ParsedEmpty();
    } else {
      ParsedFromFront(raw);
      if raw[0].Mark? && raw[0].ts <= target {
      } else {
        var k := FirstOldAt(raw[1..], target);
        if raw[0].Mark? {
          FirstOldShifts(raw[0], Parsed(raw[1..]), 0, target);
        } else {
          assert Parsed(raw) == Parsed(raw[1..]);
        }
        assert forall n :: 0 < n < |raw| ==> raw[n] == raw[1..][n - 1];
        j := k + 1;
      }
    }
  }

  /** Unreadable entries in front do not count. */
  lemma {:induction false} ParsedBehind(raw: seq<Entry>, i: nat)
    requires i < |raw| && forall k :: 0 <= k < i ==> raw[k].Malformed?
    ensures Parsed(raw) == (if raw[i].Mark? then [raw[i]] else []) + Parsed(raw[i + 1..])
    decreases i
  {
    hide Parsed;
    ParsedFromFront(raw);
    if i > 0 {
      var rest := raw[1..];
      ParsedBehind(rest, i - 1);
      assert rest[i..] == raw[i + 1..];
    }
  }

  lemma {:induction false} LatestAt(raw: seq<Entry>) returns (i: nat)
    ensures i <= |raw| && forall k :: 0 <= k < i ==> raw[k].Malformed?
    ensures i < |raw| ==> raw[i].Mark?
    decreases |raw|
  {
    if raw == [] || raw[0].Mark? {
      i := 0;
    } else {
      i := LatestAt(raw[1..]);
      assert forall n :: 0 < n < |raw| ==> raw[n] == raw[1..][n - 1];
      i := i + 1;
    }
  }

  /** A return of `past` that leads to `price`. */
  lemma {:induction false} ReturnLeads(past: real, price: real)
    requires past != 0.0
    ensures Leads(past, (price - past) / past, price)
  {}

  /** There is one latest entry and one first old entry behind it. */
  lemma {:induction false} PositionsAreUnique(raw: seq<Entry>, w: int, target: int, i: int, j: int, i': int, j': int)
    requires IsLatest(raw, w, i) && IsFirstOld(raw, w, i, target, j)
    requires IsLatest(raw, w, i') && IsFirstOld(raw, w, i', target, j')
    ensures i == i' && j == j'
  {}

  lemma {:induction false} AnswersHold(raw: seq<Entry>, now: int)
    ensures Answers(raw, |raw|, now, LiveReturn(Parsed(raw), now))
  {
    hide Parsed;
    var i := LatestAt(raw);
    var target := now - 300000;
    if i == |raw| {
      NothingParsed(raw);
    } else {
      ParsedBehind(raw, i);
      var rest := raw[i + 1..];
      var n := FirstOldAt(rest, target);
      FirstOldShifts(raw[i], Parsed(rest), 0, target);
      var r, past := LiveReturn(Parsed(raw), now), FirstOld(Parsed(rest), 0, target);
      if r.Some? {
        ReturnLeads(past.value, raw[i].price);
      }
      hide LiveReturn;
      FoundAnswers(raw, rest, now, i, n, r, past);
    }
  }

  lemma {:induction false} FoundAnswers(
      raw: seq<Entry>, rest: seq<Entry>, now: int, i: nat, n: nat, r: Option<(real, real)>, past: Option<real>)
    requires IsLatest(raw, |raw|, i) && rest == raw[i + 1..]
    requires past.Some? ==> IsFirstOld(rest, |rest|, -1, now - 300000, n) && past == Some(rest[n].price)
    requires past.None? ==> forall k :: 0 <= k < |rest| && rest[k].Mark? ==> rest[k].ts > now - 300000
    requires r.None? <==> now - raw[i].ts > 120000 || past.None? || past.value == 0.0
    requires r.Some? ==> r.value.1 == raw[i].price && Leads(past.value, r.value.0, raw[i].price)
    ensures Answers(raw, |raw|, now, r)
  {
    hide Leads;
    var target, j := now - 300000, i + 1 + n;
    assert forall k :: i < k < |raw| ==> raw[k] == rest[k - i - 1];
    if past.Some? {
      assert IsFirstOld(raw, |raw|, i, target, j);
      forall i', j' | IsLatest(raw, |raw|, i') && IsFirstOld(raw, |raw|, i', target, j') ensures i' == i && j' == j {
        PositionsAreUnique(raw, |raw|, target, i, j, i', j');
      }
    } else {
      forall i', j' | IsLatest(raw, |raw|, i') ensures !IsFirstOld(raw, |raw|, i', target, j') {
        assert i' == i;
      }
    }
  }

  lemma {:induction false} NothingParsed(raw: seq<Entry>)
    requires forall k :: 0 <= k < |raw| ==> raw[k].Malformed?
    ensures Parsed(raw) == []
  {
    if raw == [] {
    } else {
      NothingParsed(raw[..|raw| - 1]);
    }
  }

  /** The window's positions are the list's. */
  lemma {:induction false} SamePositions(raw: seq<Entry>, w: int, n: nat, i: int, target: int, j: int)
    requires n <= |raw| && (n == |raw| <= w || n == w || (n == 0 && w < 0))
    ensures IsLatest(raw[..n], n, i) == IsLatest(raw, w, i)
    ensures IsFirstOld(raw[..n], n, i, target, j) == IsFirstOld(raw, w, i, target, j)
  {
    var window := raw[..n];
    assert forall k :: 0 <= k < n ==> window[k] == raw[k];
  }

  lemma {:induction false} LiveReturnAnswers(raw: seq<Entry>, maxEntries: int, now: int)
    ensures Answers(raw, maxEntries, now, LiveReturn(Parsed(Window(raw, maxEntries)), now))
  {
    hide Leads;
    var window, target := Window(raw, maxEntries), now - 300000;
    var n, r := |window|, LiveReturn(Parsed(window), now);
    assert window == raw[..n] && (n == |raw| <= maxEntries || n == maxEntries || (n == 0 && maxEntries < 0));
    AnswersHold(window, now);
    hide Window, Parsed, LiveReturn, IsLatest, IsFirstOld;
    if r.Some? {
      var i, j :| IsLatest(window, n, i) && IsFirstOld(window, n, i, target, j)
        && now - window[i].ts <= 120000 && window[j].price != 0.0
        && r.value.1 == window[i].price && Leads(window[j].price, r.value.0, r.value.1);
      SamePositions(raw, maxEntries, n, i, target, j);
    } else {
      forall i, j | IsLatest(raw, maxEntries, i) && IsFirstOld(raw, maxEntries, i, target, j)
        ensures now - raw[i].ts > 120000 || raw[j].price == 0.0
      {
        SamePositions(raw, maxEntries, n, i, target, j);
      }
    }
  }
}
