/** The `mark_hist` price lists: entries are pushed on the left, so the newest comes first. */
module MarkHistory {
  import opened Common

  /** One Redis list entry: a parsed "timestamp:price" pair, or text that does not parse. */
  datatype Entry = Mark(ts: int, price: real) | Malformed

  function Parsed(raw: seq<Entry>): (r: seq<Entry>)
    ensures forall e :: e in r ==> e.Mark?
  {
    if raw == [] then []
    else Parsed(raw[..|raw| - 1]) + (if raw[|raw| - 1].Mark? then [raw[|raw| - 1]] else [])
  }

  lemma {:induction false} ParsedAppend(a: seq<Entry>, b: seq<Entry>)
    ensures Parsed(a + b) == Parsed(a) + Parsed(b)
    decreases |b|
  {
    if b == [] {
      assert a + b == a;
    } else {
      assert (a + b)[..|a + b| - 1] == a + b[..|b| - 1];
      ParsedAppend(a, b[..|b| - 1]);
    }
  }

  lemma {:induction false} ParsedMembers(raw: seq<Entry>, e: Entry)
    ensures e in Parsed(raw) <==> e in raw && e.Mark?
  {
    if raw == [] {
    } else {
      ParsedMembers(raw[..|raw| - 1], e);
      assert raw == raw[..|raw| - 1] + [raw[|raw| - 1]];
    }
  }

  // ----- Price paths ----------------------------------------------------------

  datatype Tick = Tick(ts: int, price: real)

  function TickTs(): Tick -> int { (t: Tick) => t.ts }

  function Ticks(parsed: seq<Entry>): (r: seq<Tick>)
    requires forall e :: e in parsed ==> e.Mark?
    ensures |r| == |parsed|
  {
    seq(|parsed|, i requires 0 <= i < |parsed| => Tick(parsed[i].ts, parsed[i].price))
  }

  /** The readable entries in ascending time order; entries of equal time keep list order. */
  function History(raw: seq<Entry>): seq<Tick> { SortBy(Ticks(Parsed(raw)), TickTs()) }

  /** `_parse_mark_hist`. */
  method ParseMarkHist(raw: seq<Entry>) returns (ticks: seq<Tick>)
    ensures ticks == History(raw) && SortedBy(ticks, TickTs())
  {
    ticks := [];
    for i := 0 to |raw|
      invariant ticks == Ticks(Parsed(raw[..i]))
    {
      assert raw[..i + 1][..i] == raw[..i];
      if raw[i].Mark? {
        ticks := ticks + [Tick(raw[i].ts, raw[i].price)];
      }
    }
    assert raw[..|raw|] == raw;
    SortSorts(ticks, TickTs());
    ticks := SortBy(ticks, TickTs());
  }

  /** Newly pushed entries are later than everything already in the list. */
  ghost predicate Later(newer: seq<Entry>, older: seq<Entry>) {
    forall n, o :: n in Parsed(newer) && o in Parsed(older) ==> o.ts < n.ts
  }

  /** Pushing later entries extends the path at its end. */
  lemma {:induction false} HistoryExtends(newer: seq<Entry>, older: seq<Entry>)
    requires Later(newer, older)
    ensures History(newer + older) == History(older) + History(newer)
  {
    ParsedAppend(newer, older);
    var n, o := Ticks(Parsed(newer)), Ticks(Parsed(older));
    assert Ticks(Parsed(newer + older)) == n + o;
    forall a, b | a in o && b in n ensures TickTs()(a) < TickTs()(b) {
      var i :| 0 <= i < |o| && o[i] == a;
      var k :| 0 <= k < |n| && n[k] == b;
      assert Parsed(older)[i] in Parsed(older) && Parsed(newer)[k] in Parsed(newer);
    }
    SortNewerInFront(n, o, TickTs());
  }

  /** The part of the path from a signal's time on. */
  function Since(ticks: seq<Tick>, ts: int): seq<Tick> {
    if ticks == [] then []
    else Since(ticks[..|ticks| - 1], ts) + (if ticks[|ticks| - 1].ts >= ts then [ticks[|ticks| - 1]] else [])
  }

  lemma {:induction false} SinceAppend(a: seq<Tick>, b: seq<Tick>, ts: int)
    ensures Since(a + b, ts) == Since(a, ts) + Since(b, ts)
    decreases |b|
  {
    if b == [] {
      assert a + b == a;
    } else {
      assert (a + b)[..|a + b| - 1] == a + b[..|b| - 1];
      SinceAppend(a, b[..|b| - 1], ts);
    }
  }

  lemma {:induction false} SinceMembers(ticks: seq<Tick>, ts: int, t: Tick)
    ensures t in Since(ticks, ts) <==> t in ticks && t.ts >= ts
  {
    if ticks == [] {
    } else {
      SinceMembers(ticks[..|ticks| - 1], ts, t);
      assert ticks == ticks[..|ticks| - 1] + [ticks[|ticks| - 1]];
    }
  }

  lemma {:induction false} HistoryMembers(raw: seq<Entry>, t: Tick)
    ensures t in History(raw) <==> Mark(t.ts, t.price) in Parsed(raw)
  {
    SortedMembers(Ticks(Parsed(raw)), TickTs(), t);
    var parsed := Parsed(raw);
    if Mark(t.ts, t.price) in parsed {
      var i :| 0 <= i < |parsed| && parsed[i] == Mark(t.ts, t.price);
      assert Ticks(parsed)[i] == t;
    }
    if t in Ticks(parsed) {
      var i :| 0 <= i < |parsed| && Ticks(parsed)[i] == t;
      assert parsed[i] == Mark(t.ts, t.price);
    }
  }

  // ----- Lists in time order --------------------------------------------------

  /** Readable entries were pushed in strictly ascending time order. */
  ghost predicate Chronological(raw: seq<Entry>) {
    forall i, j :: 0 <= i < j < |raw| && raw[i].Mark? && raw[j].Mark? ==> raw[j].ts < raw[i].ts
  }

  ghost predicate StrictTs(ticks: seq<Tick>) {
    forall i, j :: 0 <= i < j < |ticks| ==> ticks[i].ts < ticks[j].ts
  }

  lemma {:induction false} ChronologicalGrows(entry: Entry, raw: seq<Entry>)
    requires Chronological(raw) && Later([entry], raw)
    ensures Chronological([entry] + raw)
  {
    forall j | 0 <= j < |raw| && entry.Mark? && raw[j].Mark? ensures raw[j].ts < entry.ts {
      ParsedMembers([entry], entry);
      ParsedMembers(raw, raw[j]);
    }
  }

  lemma {:induction false} ChronologicalParts(newer: seq<Entry>, older: seq<Entry>)
    requires Chronological(newer + older)
    ensures Chronological(newer) && Chronological(older) && Later(newer, older)
  {
    var all := newer + older;
    assert forall i :: 0 <= i < |newer| ==> newer[i] == all[i];
    assert forall i :: 0 <= i < |older| ==> older[i] == all[|newer| + i];
    forall n, o | n in Parsed(newer) && o in Parsed(older) ensures o.ts < n.ts {
      ParsedMembers(newer, n);
      ParsedMembers(older, o);
      var i :| 0 <= i < |newer| && newer[i] == n;
      var j :| 0 <= j < |older| && older[j] == o;
      assert all[i].Mark? && all[|newer| + j].Mark?;
    }
  }

  lemma {:induction false} HistoryStrict(raw: seq<Entry>)
    requires Chronological(raw)
    ensures StrictTs(History(raw))
  {
    if raw == [] {
    } else {
      assert raw == [raw[0]] + raw[1..];
      ChronologicalParts([raw[0]], raw[1..]);
      HistoryExtends([raw[0]], raw[1..]);
      HistoryStrict(raw[1..]);
      var before, last := History(raw[1..]), History([raw[0]]);
      assert Parsed([raw[0]][..0]) == [];
      forall i, j | 0 <= i < |before| && 0 <= j < |last| ensures before[i].ts < last[j].ts {
        HistoryMembers(raw[1..], before[i]);
        HistoryMembers([raw[0]], last[j]);
      }
      hide History;
    }
  }

  lemma {:induction false} SinceStrictTicks(ticks: seq<Tick>, ts: int)
    requires StrictTs(ticks)
    ensures StrictTs(Since(ticks, ts))
  {
    if ticks == [] {
    } else {
      var front, last := ticks[..|ticks| - 1], ticks[|ticks| - 1];
      SinceStrictTicks(front, ts);
      forall i | 0 <= i < |Since(front, ts)| ensures Since(front, ts)[i].ts < last.ts {
        SinceMembers(front, ts, Since(front, ts)[i]);
      }
    }
  }

  lemma {:induction false} SinceStrict(raw: seq<Entry>, ts: int)
    requires Chronological(raw)
    ensures StrictTs(Since(History(raw), ts))
  {
    HistoryStrict(raw);
    SinceStrictTicks(History(raw), ts);
  }
}
