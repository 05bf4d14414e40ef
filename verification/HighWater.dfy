/** The high-water mark of one position as the two monitors keep it: a price key that both
    write and a time key that only the polling runner writes. Each monitor reads, computes
    and writes; any interleaving of these commands may occur. */
module HighWater {
  import opened Common
  import opened ExitRule

  /** A Redis key: missing, unreadable, or a value. */
  datatype Key<T> = Absent | Garbled | Holds(value: T)

  /** What stays while a position is held: its average and when it was opened. */
  datatype Lot = Lot(avg: real, openedSec: int)

  datatype Monitor = Poll | Ws

  /** A monitor between its commands: nothing in hand, or a mark still to be written, with the
      mark that counted when it read. */
  datatype Hand = Free | Ready(mark: real, seen: real)

  datatype State = State(mark: Key<real>, stamp: Key<int>, poll: Hand, ws: Hand)

  function HandOf(s: State, w: Monitor): Hand { if w.Poll? then s.poll else s.ws }

  function WithHand(s: State, w: Monitor, h: Hand): State { if w.Poll? then s.(poll := h) else s.(ws := h) }

  /** The mark a monitor works with: the key when it is readable, else the average. */
  function Effective(s: State, lot: Lot): real { if s.mark.Holds? then s.mark.value else lot.avg }

  /** The poll distrusts a mark whose time is from before the opening, or unreadable. */
  predicate StampStale(s: State, lot: Lot) {
    s.stamp.Garbled? || (s.stamp.Holds? && s.stamp.value < lot.openedSec)
  }

  /** Where a monitor starts from: the poll goes back to the average on a stale stamp. */
  function StartOf(s: State, lot: Lot, w: Monitor): real {
    if w.Poll? && s.mark.Holds? && StampStale(s, lot) then lot.avg else Effective(s, lot)
  }

  /** A monitor reads at a price, or writes what it computed; a process may die; the mark, or
      both keys, may be dropped by a sell, a clean-up or expiry. The poll skips prices that are
      not positive. */
  datatype Action =
    | Read(who: Monitor, price: real) | Write(who: Monitor, nowSec: int) | Die(who: Monitor) | Drop(stampToo: bool)

  function Step(s: State, lot: Lot, a: Action): State {
    match a
    case Read(w, price) =>
      if w.Poll? && price <= 0.0 then s
      else WithHand(s, w, Ready(Max(StartOf(s, lot, w), price), Effective(s, lot)))
    case Write(w, nowSec) =>
      var h := HandOf(s, w);
      if h.Free? then s
      else
        var written := WithHand(s, w, Free).(mark := Holds(h.mark));
        if w.Poll? then written.(stamp := Holds(nowSec)) else written
    case Die(w) => WithHand(s, w, Free)
    case Drop(stampToo) => s.(mark := Absent, stamp := if stampToo then Absent else s.stamp)
  }

  function Run(s: State, lot: Lot, actions: seq<Action>): State
    decreases |actions|
  {
    if actions == [] then s else Run(Step(s, lot, actions[0]), lot, actions[1..])
  }

  // ----- When the mark falls --------------------------------------------------

  predicate Lowers(s: State, lot: Lot, a: Action) { Effective(Step(s, lot, a), lot) < Effective(s, lot) }

  /** The hand holds less than its monitor saw: it went back to the average. */
  predicate WritesReset(s: State, a: Action) {
    a.Write? && HandOf(s, a.who).Ready? && HandOf(s, a.who).mark < HandOf(s, a.who).seen
  }

  /** Since the monitor read, the other one has written a higher mark than either. */
  predicate WritesOver(s: State, lot: Lot, a: Action) {
    a.Write? && HandOf(s, a.who).Ready?
    && Effective(s, lot) > HandOf(s, a.who).mark && Effective(s, lot) > HandOf(s, a.who).seen
  }

  /** The mark is dropped while it is above the average. */
  predicate DropsRise(s: State, lot: Lot, a: Action) { a.Drop? && Effective(s, lot) > lot.avg }

  predicate Clean(s: State, lot: Lot, a: Action) {
    !WritesReset(s, a) && !WritesOver(s, lot, a) && !DropsRise(s, lot, a)
  }

  /** Nobody has seen a mark above the present one: so it is while the mark never falls. */
  predicate NoneAhead(s: State, lot: Lot) {
    (s.poll.Ready? ==> s.poll.seen <= Effective(s, lot)) && (s.ws.Ready? ==> s.ws.seen <= Effective(s, lot))
  }

  /** A reading leads to a reset exactly when the poll finds a stale stamp on a mark above both
      the average and the price. */
  lemma {:induction false} ReadsResetIff(s: State, lot: Lot, w: Monitor, price: real)
    requires w.Poll? ==> price > 0.0
    ensures var h := HandOf(Step(s, lot, Read(w, price)), w);
      h.mark < h.seen <==> w.Poll? && s.mark.Holds? && StampStale(s, lot) && s.mark.value > Max(lot.avg, price)
  {}

  /** A command lowers the mark exactly when it writes a reset, writes over a higher mark or
      drops one. */
  lemma {:induction false} LowersIff(s: State, lot: Lot, a: Action)
    requires NoneAhead(s, lot)
    ensures Lowers(s, lot, a) <==> !Clean(s, lot, a)
    ensures !Lowers(s, lot, a) ==> NoneAhead(Step(s, lot, a), lot)
  {}

  predicate NeverLowers(s: State, lot: Lot, actions: seq<Action>)
    decreases |actions|
  {
    actions != [] ==> !Lowers(s, lot, actions[0]) && NeverLowers(Step(s, lot, actions[0]), lot, actions[1..])
  }

  predicate CleanRun(s: State, lot: Lot, actions: seq<Action>)
    decreases |actions|
  {
    actions != [] ==> Clean(s, lot, actions[0]) && CleanRun(Step(s, lot, actions[0]), lot, actions[1..])
  }

  /** Over every interleaving the mark never falls exactly when no write is a reset, none goes
      over a higher mark and none above the average is dropped. */
  lemma {:induction false} MarkNeverFallsIff(s: State, lot: Lot, actions: seq<Action>)
    requires NoneAhead(s, lot)
    ensures NeverLowers(s, lot, actions) <==> CleanRun(s, lot, actions)
    decreases |actions|
  {
    hide Step, Lowers, Clean, NoneAhead;
    if actions == [] {
    } else {
      LowersIff(s, lot, actions[0]);
      if !Lowers(s, lot, actions[0]) {
        MarkNeverFallsIff(Step(s, lot, actions[0]), lot, actions[1..]);
      }
    }
  }

  // ----- The stop -------------------------------------------------------------

  datatype Percentages = Percentages(stop: real, trail: real, tightPct: Option<real>, tightTrigger: Option<real>)

  function StopOf(s: State, lot: Lot, p: Percentages): real {
    StopPrice(lot.avg, Some(Effective(s, lot)), p.stop, p.trail, p.tightPct, p.tightTrigger)
  }

  predicate StopNeverFallsOn(s: State, lot: Lot, p: Percentages, actions: seq<Action>)
    decreases |actions|
  {
    actions != [] ==>
      var next := Step(s, lot, actions[0]);
      StopOf(s, lot, p) <= StopOf(next, lot, p) && StopNeverFallsOn(next, lot, p, actions[1..])
  }

  /** The stop never falls on any clean run. */
  ghost predicate StopHolds(lot: Lot, p: Percentages) {
    forall s, actions :: NoneAhead(s, lot) && CleanRun(s, lot, actions) ==> StopNeverFallsOn(s, lot, p, actions)
  }

  lemma {:induction false} CleanRunKeepsStop(s: State, lot: Lot, p: Percentages, actions: seq<Action>)
    requires Ratchets(lot.avg, p.stop, p.trail, p.tightPct, p.tightTrigger)
    requires NoneAhead(s, lot) && CleanRun(s, lot, actions)
    ensures StopNeverFallsOn(s, lot, p, actions)
    decreases |actions|
  {
    hide Step, Clean, NoneAhead, StopPrice;
    if actions == [] {
    } else {
      LowersIff(s, lot, actions[0]);
      CleanRunKeepsStop(Step(s, lot, actions[0]), lot, p, actions[1..]);
    }
  }

  /** So the stop never falls exactly when the percentages meet the ratchet condition, the mark
      being kept; with a mark that is lowered no percentages help. */
  lemma {:induction false} StopHoldsIff(lot: Lot, p: Percentages)
    requires lot.avg > 0.0
    ensures StopHolds(lot, p) <==> RatchetCondition(p.stop, p.trail, p.tightPct, p.tightTrigger)
  {
    hide RatchetCondition, StopPrice;
    StopRatchetsIff(lot.avg, p.stop, p.trail, p.tightPct, p.tightTrigger);
    if Ratchets(lot.avg, p.stop, p.trail, p.tightPct, p.tightTrigger) {
      forall s, actions | NoneAhead(s, lot) && CleanRun(s, lot, actions) ensures StopNeverFallsOn(s, lot, p, actions) {
        CleanRunKeepsStop(s, lot, p, actions);
      }
    } else {
      var lo, hi :| lo <= hi &&
        StopPrice(lot.avg, Some(lo), p.stop, p.trail, p.tightPct, p.tightTrigger)
          > StopPrice(lot.avg, Some(hi), p.stop, p.trail, p.tightPct, p.tightTrigger);
      RiseLowersStop(lot, p, lo, hi);
    }
  }

  lemma {:induction false} RiseLowersStop(lot: Lot, p: Percentages, lo: real, hi: real)
    requires lo <= hi
    requires StopPrice(lot.avg, Some(lo), p.stop, p.trail, p.tightPct, p.tightTrigger)
           > StopPrice(lot.avg, Some(hi), p.stop, p.trail, p.tightPct, p.tightTrigger)
    ensures !StopHolds(lot, p)
  {
    hide StopPrice;
    var s := State(Holds(lo), Absent, Free, Ready(hi, lo));
    var actions := [Write(Ws, 0)];
    assert actions[1..] == [];
    assert CleanRun(s, lot, actions) && !StopNeverFallsOn(s, lot, p, actions);
  }

  // ----- Monitors that do not overlap -----------------------------------------

  /** A whole reading and writing of one monitor. */
  datatype Look = Look(who: Monitor, price: real, nowSec: int)

  function After(s: State, lot: Lot, k: Look): State {
    Step(Step(s, lot, Read(k.who, k.price)), lot, Write(k.who, k.nowSec))
  }

  function AfterAll(s: State, lot: Lot, looks: seq<Look>): State {
    if looks == [] then s else After(AfterAll(s, lot, looks[..|looks| - 1]), lot, looks[|looks| - 1])
  }

  predicate Quiet(s: State) { s.poll.Free? && s.ws.Free? }

  /** The poll's clock is not behind the opening. */
  predicate OnTime(lot: Lot, k: Look) { k.who.Poll? ==> k.price > 0.0 && k.nowSec >= lot.openedSec }

  lemma {:induction false} LookKeeps(s: State, lot: Lot, k: Look)
    requires Quiet(s) && OnTime(lot, k)
    ensures var end := After(s, lot, k);
      Quiet(end) && end.mark.Holds? && (StampStale(end, lot) <==> StampStale(s, lot) && k.who.Ws?)
  {}

  predicate NoPoll(looks: seq<Look>) {
    looks != [] ==> NoPoll(looks[..|looks| - 1]) && looks[|looks| - 1].who.Ws?
  }

  predicate AllOnTime(lot: Lot, looks: seq<Look>) {
    looks != [] ==> AllOnTime(lot, looks[..|looks| - 1]) && OnTime(lot, looks[|looks| - 1])
  }

  lemma {:induction false} LooksKeep(s: State, lot: Lot, looks: seq<Look>)
    requires Quiet(s) && AllOnTime(lot, looks)
    ensures var end := AfterAll(s, lot, looks);
      && Quiet(end) && (looks != [] ==> end.mark.Holds?)
      && (StampStale(end, lot) <==> StampStale(s, lot) && NoPoll(looks))
  {
    hide After, StampStale, OnTime;
    if looks == [] {
    } else {
      var front, k := looks[..|looks| - 1], looks[|looks| - 1];
      LooksKeep(s, lot, front);
      LookKeeps(AfterAll(s, lot, front), lot, k);
    }
  }

  /** When the monitors do not overlap, the mark falls at most once in the life of a position:
      exactly when its first poll finds a time key left from before the opening and a mark
      that has since risen above both the average and the price. */
  lemma {:induction false} OnlyFirstPollLowers(s: State, lot: Lot, looks: seq<Look>, k: Look)
    requires Quiet(s) && AllOnTime(lot, looks) && OnTime(lot, k)
    ensures var mid := AfterAll(s, lot, looks);
      Effective(After(mid, lot, k), lot) < Effective(mid, lot) <==>
        && k.who.Poll? && NoPoll(looks)
        && StampStale(s, lot) && Effective(mid, lot) > Max(lot.avg, k.price)
  {
    LooksKeep(s, lot, looks);
    var mid := AfterAll(s, lot, looks);
    hide AfterAll;
    OneLookLowersIff(mid, lot, k);
  }

  lemma {:induction false} OneLookLowersIff(s: State, lot: Lot, k: Look)
    requires Quiet(s) && OnTime(lot, k)
    ensures Effective(After(s, lot, k), lot) < Effective(s, lot) <==>
      k.who.Poll? && StampStale(s, lot) && Effective(s, lot) > Max(lot.avg, k.price)
  {}

  /** A market with the poll alone never lowers the mark of a position that opened with it. */
  lemma {:induction false} PollAloneNeverLowers(s: State, lot: Lot, looks: seq<Look>, k: Look)
    requires Quiet(s) && Effective(s, lot) == lot.avg
    requires AllOnTime(lot, looks) && (forall l :: l in looks ==> l.who.Poll?) && OnTime(lot, k) && k.who.Poll?
    ensures var mid := AfterAll(s, lot, looks); Effective(mid, lot) <= Effective(After(mid, lot, k), lot)
  {
    OnlyFirstPollLowers(s, lot, looks, k);
    if looks != [] {
      assert looks[|looks| - 1] in looks;
    }
  }

  /** Overlapping, they can lose a rise in every state: the poll reads, the websocket monitor
      reads and writes a high price, the poll writes what it had computed. */
  lemma {:induction false} OverlapCanLoseRise(s: State, lot: Lot, nowSec: int) returns (high: real)
    ensures var before := [Read(Poll, 1.0)] + ([Read(Ws, high)] + ([Write(Ws, nowSec)] + []));
      Lowers(Run(s, lot, before), lot, Write(Poll, nowSec))
  {
    var a := Step(s, lot, Read(Poll, 1.0));
    high := Max(Effective(s, lot), a.poll.mark) + 1.0;
    var b := Step(a, lot, Read(Ws, high));
    var c := Step(b, lot, Write(Ws, nowSec));
    RunFirst(s, lot, Read(Poll, 1.0), [Read(Ws, high)] + ([Write(Ws, nowSec)] + []));
    RunFirst(a, lot, Read(Ws, high), [Write(Ws, nowSec)] + []);
    RunFirst(b, lot, Write(Ws, nowSec), []);
    assert Run(c, lot, []) == c;
  }

  lemma {:induction false} RunFirst(s: State, lot: Lot, a: Action, rest: seq<Action>)
    ensures Run(s, lot, [a] + rest) == Run(Step(s, lot, a), lot, rest)
  {
    assert ([a] + rest)[1..] == rest;
    hide Step;
  }

  // ----- A reopened coin ------------------------------------------------------

  const COIN_PERCENTAGES := Percentages(COIN_STOP, COIN_TRAIL, Some(COIN_TIGHT), Some(COIN_TIGHT_TRIGGER))

  /** A coin reopened at 100 keeps the time key of its last holding. The websocket monitor
      sees 110, the first poll 108: neither is at the stop, the percentages meet the condition,
      and the stop falls from 106.70 to 104.76. */
  lemma {:induction false} ReopenedCoinStopFalls(openedSec: int, staleSec: int, nowSec: int)
    requires staleSec < openedSec <= nowSec
    ensures var lot, start := Lot(100.0, openedSec), State(Holds(100.0), Holds(staleSec), Free, Free);
      var up := After(start, lot, Look(Ws, 110.0, nowSec));
      var down := After(up, lot, Look(Poll, 108.0, nowSec));
      && RatchetCondition(COIN_STOP, COIN_TRAIL, Some(COIN_TIGHT), Some(COIN_TIGHT_TRIGGER))
      && StopOf(up, lot, COIN_PERCENTAGES) == 106.7 && StopOf(down, lot, COIN_PERCENTAGES) == 104.76
      && 110.0 > StopOf(up, lot, COIN_PERCENTAGES) && 108.0 > StopOf(down, lot, COIN_PERCENTAGES)
  {
    var lot, start := Lot(100.0, openedSec), State(Holds(100.0), Holds(staleSec), Free, Free);
    var up := After(start, lot, Look(Ws, 110.0, nowSec));
    var down := After(up, lot, Look(Poll, 108.0, nowSec));
    assert Effective(up, lot) == 110.0 && Effective(down, lot) == 108.0;
    hide After;
    assert Less(100.0, COIN_STOP) == 97.0 && More(100.0, COIN_TIGHT_TRIGGER) == 105.0;
    assert Less(110.0, COIN_TIGHT) == 106.7 && Less(108.0, COIN_TIGHT) == 104.76;
  }
}
