/** Safety of the order pipeline over whole runs. Between signals the outside world may set
    or clear the pause key, reset a daily counter, stamp and settle orders, and open and
    close positions. */
module PipelineSafety {
  import opened Common
  import opened Domain
  import opened Strategy
  import opened Pipeline

  datatype Event =
    | Receive(s: SignalFields, env: Env)
    | SetPause(value: string)
    | ClearPause
    | ResetCount(day: DayKey)
    | Sighted(order: nat, sec: int)         // the watcher sees an order for the first time
    | Settle(order: nat, status: string)    // the watcher gives a submitted order its final status
    | Book(order: nat)                      // the fill of a bought order becomes a position
    | Adopt(position: SymbolKey, qty: real) // a position enters the index in any other way
    | Close(position: SymbolKey)
    | SetFacts(facts: Facts)                // other processes write their keys

  function Step(st: State, e: Event, u: Setup): State {
    match e
    case Receive(s, env) => Turn(st, s, env, u).0
    case SetPause(v) => st.(pause := Some(v))
    case ClearPause => st.(pause := None)
    case ResetCount(day) => st.(gate := st.gate.(counts := st.gate.counts - {day}))
    case Sighted(n, sec) =>
      if n < |st.orders| then st.(orders := st.orders[n := Stamped(st.orders[n], sec)]) else st
    case Settle(n, status) =>
      if n < |st.orders| then st.(orders := st.orders[n := Settled(st.orders[n], status)]) else st
    case Book(n) =>
      if n < |st.orders| && IsOutstanding(st.orders[n]) then
        var o := st.orders[n];
        var k := SymbolKey(o.market, o.meta.symbol);
        st.(orders := st.orders[n := o.(booked := true)], index := st.index + {k},
            facts := Hold(st.facts, k, if o.meta.qty.Some? then Amount(o.meta.qty.value) else Corrupt))
      else st
    case Adopt(k, qty) => st.(index := st.index + {k}, facts := Hold(st.facts, k, Amount(qty)))
    case Close(k) => st.(index := st.index - {k}, facts := st.facts.(held := st.facts.held - {k}))
    case SetFacts(facts) => st.(facts := facts)
  }

  /** A quantity added to what the position hash holds. */
  function Hold(f: Facts, k: SymbolKey, more: Cell): Facts {
    var before := CellAt(f.held, k);
    f.(held := f.held[k := if before.Amount? && more.Amount? then Amount(before.value + more.value) else more])
  }

  /** `_ensure_meta`: the first stamp stays. Orders without keys are never found. */
  function Stamped(o: Order, sec: int): Order {
    if o.known && o.meta.status == "SUBMITTED" && o.meta.firstSeen.None?
    then o.(meta := o.meta.(firstSeen := Some(sec)))
    else o
  }

  function Settled(o: Order, status: string): Order {
    if o.known && o.meta.status == "SUBMITTED" then o.(meta := o.meta.(status := status)) else o
  }

  /** A buy that may still become a position, or has and is not in the index yet. */
  predicate IsOutstanding(o: Order) {
    o.meta.side == "BUY" && !o.booked && o.meta.status !in {"CANCELED", "REJECTED", "ERROR"}
  }

  function Run(st: State, es: seq<Event>, u: Setup): State {
    if es == [] then st else Step(Run(st, es[..|es| - 1], u), es[|es| - 1], u)
  }

  /** The state in which event `i` strikes. */
  function At(st: State, es: seq<Event>, u: Setup, i: nat): State
    requires i <= |es|
  {
    Run(st, es[..i], u)
  }

  lemma {:induction false} AtNext(st: State, es: seq<Event>, u: Setup, i: nat)
    requires i < |es|
    ensures At(st, es, u, i + 1) == Step(At(st, es, u, i), es[i], u)
  {
    assert es[..i + 1][..i] == es[..i];
  }

  // ----- What one turn does ---------------------------------------------------

  predicate ReachesGate(st: State, e: Event) {
    && e.Receive? && !RunnerPaused(st.pause) && IsSignal(e.s)
    && !(e.s.ageSec.Some? && e.s.ageSec.value > SIGNAL_MAX_AGE_SEC) && e.env.guardAllows
  }

  function GateDecision(st: State, e: Event, u: Setup): Decision
    requires e.Receive?
  {
    GateCheck(st.gate, KeyOf(e.s), e.s.symbol, u.cfg.For(e.s.market), e.env.now, e.env.setAt).1
  }

  /** The gate has seen the signal and let its id through the duplicate check. */
  predicate Seen(st: State, e: Event, u: Setup) { ReachesGate(st, e) && GateDecision(st, e, u) != DupSignal }

  predicate Allowed(st: State, e: Event, u: Setup) { ReachesGate(st, e) && GateDecision(st, e, u) == Ok }

  predicate Orders(st: State, e: Event, u: Setup): (r: bool)
    ensures r ==> e.Receive?
  {
    e.Receive? && Turn(st, e.s, e.env, u).1.Ordered?
  }

  predicate KillSwitchFires(st: State, e: Event, u: Setup) {
    e.Receive? && Turn(st, e.s, e.env, u).1 == RiskRejected(KillSwitch)
  }

  /** What must hold of a signal for an order, in one place: no pause applies, a loss limit
      is not crossed, and an entry is of a live family, in a symbol not yet held, with a free
      slot and within the cash share left after pending buys. */
  predicate WithinLimits(st: State, s: SignalFields, v: RiskView, lim: Limits) {
    var pending := PendingNotionals(Scan(st.orders, s.market), v.nowSec);
    && !RiskPaused(st.pause) && !RiskPaused(st.facts.compatPause)
    && (RiskPaused(Lookup(st.facts.marketPause, s.market)) ==> BypassAllowed(st.facts, s))
    && LossOk(st.facts, s.market, lim)
    && (s.direction.Long? ==>
          && (s.family == "" || ModeOf(st.facts, s.market, s.family).Live?)
          && NotHeld(st.facts, SymbolKey(s.market, s.symbol))
          && OpenIn(st.index, s.market) + |pending| < lim.maxConcurrent
          && v.availableCash.Some? && v.availableCash.value > 0.0
          && s.sizeCash <= Max(0.0, v.availableCash.value - Sum(pending)) * lim.allocationPct)
  }

  /** The market's realized PnL is readable and above the loss limit, or not there. */
  predicate LossOk(f: Facts, m: Market, lim: Limits) {
    var realized := CellAt(f.realized, m);
    realized.Missing? || (realized.Amount? && realized.value > lim.lossLimit)
  }

  predicate NotHeld(f: Facts, k: SymbolKey) {
    var held := CellAt(f.held, k);
    held.Missing? || (held.Amount? && held.value <= 0.0)
  }

  /** A signal is ordered exactly when it is valid and fresh, passes the gate, its broker is there, it
      is within every limit, its lock is free and it amounts to an order. */
  lemma {:induction false} OrdersIff(st: State, e: Event, u: Setup)
    requires e.Receive?
    ensures Orders(st, e, u) <==>
      && Allowed(st, e, u) && u.HasBroker(e.s.market)
      && WithinLimits(st, e.s, e.env.risk, u.lim.For(e.s.market))
      && !Alive(st.locks, KeyOf(e.s), e.env.lockAt) && CanBuild(e.s)
  {
    var gate := GateCheck(st.gate, KeyOf(e.s), e.s.symbol, u.cfg.For(e.s.market), e.env.now, e.env.setAt).0;
    RiskOkIff(st.(gate := gate), e.s, e.env.risk, u.lim.For(e.s.market));
    assert WithinLimits(st.(gate := gate), e.s, e.env.risk, u.lim.For(e.s.market))
        == WithinLimits(st, e.s, e.env.risk, u.lim.For(e.s.market));
    hide RiskRules, WithinLimits, GateCheck;
  }

  lemma {:induction false} RiskOkIff(st: State, s: SignalFields, v: RiskView, lim: Limits)
    ensures RiskRules(st, s, v, lim) == RiskOk <==> WithinLimits(st, s, v, lim)
  {
    hide RiskPaused, BypassAllowed, PendingNotionals, OpenIn, Scan, ModeOf;
  }

  lemma {:induction false} OrdersAreAllowed(st: State, e: Event, u: Setup)
    requires Orders(st, e, u)
    ensures Allowed(st, e, u) && Seen(st, e, u)
  {}

  /** The gate after any event: unchanged, checked, or reset by an operator. */
  lemma {:induction false} GateAfter(st: State, e: Event, u: Setup)
    ensures var g := Step(st, e, u).gate;
      g == if ReachesGate(st, e)
           then GateCheck(st.gate, KeyOf(e.s), e.s.symbol, u.cfg.For(e.s.market), e.env.now, e.env.setAt).0
           else if e.ResetCount? then st.gate.(counts := st.gate.counts - {e.day})
           else st.gate
  {}

  // ----- Duplicate window -----------------------------------------------------

  /** The id is on file at least until `until`. */
  predicate FiledUntil(g: Gate, id: SignalKey, until: int) { id in g.dedupe && g.dedupe[id] >= until }

  /** No event shortens the time an id is on file: it is only written again once that time is
      over. */
  lemma {:induction false} FileKept(st: State, e: Event, u: Setup, id: SignalKey, until: int)
    requires u.cfg.Valid() && FiledUntil(st.gate, id, until)
    ensures FiledUntil(Step(st, e, u).gate, id, until)
  {
    GateAfter(st, e, u);
    hide Step;
  }

  lemma {:induction false} SightingFiles(st: State, e: Event, u: Setup)
    requires Seen(st, e, u)
    ensures FiledUntil(Step(st, e, u).gate, KeyOf(e.s), e.env.now + u.cfg.For(e.s.market).dedupeTtlSec * 1000)
  {
    GateAfter(st, e, u);
    hide Step;
  }

  /** Once seen, an id stays on file at least until its window ends; seeing it again after
      that only extends it. */
  lemma {:induction false} SeenStays(st: State, es: seq<Event>, u: Setup, i: nat, j: nat)
    requires u.cfg.Valid() && i < j <= |es| && Seen(At(st, es, u, i), es[i], u)
    ensures var e := es[i];
      FiledUntil(At(st, es, u, j).gate, KeyOf(e.s), e.env.now + u.cfg.For(e.s.market).dedupeTtlSec * 1000)
    decreases j
  {
    hide Step, FiledUntil, Run;
    var e := es[i];
    AtNext(st, es, u, j - 1);
    SightingFiles(At(st, es, u, i), e, u);
    if i < j - 1 {
      SeenStays(st, es, u, i, j - 1);
      FileKept(At(st, es, u, j - 1), es[j - 1], u, KeyOf(e.s), e.env.now + u.cfg.For(e.s.market).dedupeTtlSec * 1000);
    }
  }

  /** Two sightings of one signal id that both pass the duplicate check, whatever became of
      the signal after the first, lie a full window apart. */
  lemma {:induction false} SeenOncePerWindow(st: State, es: seq<Event>, u: Setup, i: nat, j: nat)
    requires u.cfg.Valid() && i < j < |es|
    requires Seen(At(st, es, u, i), es[i], u) && Seen(At(st, es, u, j), es[j], u)
    requires KeyOf(es[i].s) == KeyOf(es[j].s)
    ensures es[j].env.now >= es[i].env.now + u.cfg.For(es[i].s.market).dedupeTtlSec * 1000
  {
    SeenStays(st, es, u, i, j);
  }

  /** So one signal id reaches `place_order` at most once per window, although the executor
      frees its own lock whenever the broker call raises. */
  lemma {:induction false} OrderedOncePerWindow(st: State, es: seq<Event>, u: Setup, i: nat, j: nat)
    requires u.cfg.Valid() && i < j < |es|
    requires Orders(At(st, es, u, i), es[i], u) && Orders(At(st, es, u, j), es[j], u)
    requires KeyOf(es[i].s) == KeyOf(es[j].s)
    ensures es[j].env.now >= es[i].env.now + u.cfg.For(es[i].s.market).dedupeTtlSec * 1000
  {
    OrdersAreAllowed(At(st, es, u, i), es[i], u);
    OrdersAreAllowed(At(st, es, u, j), es[j], u);
    SeenOncePerWindow(st, es, u, i, j);
  }

  // ----- Cooldown -------------------------------------------------------------

  function SymbolOf(s: SignalFields): SymbolKey { SymbolKey(s.market, s.symbol) }

  /** The symbol's stamp is no older than `at` and runs out one cooldown after it. */
  predicate StampedSince(g: Gate, sym: SymbolKey, at: int, cfg: Config) {
    && sym in g.cooldown && g.cooldown[sym].last >= at
    && g.cooldown[sym].expiry == g.cooldown[sym].last + cfg.For(sym.market).cooldownSec * 1000
  }

  /** No event removes a stamp or moves it back: a new one is only written once the old one
      has run out. */
  lemma {:induction false} StampKept(st: State, e: Event, u: Setup, sym: SymbolKey, at: int)
    requires u.cfg.Valid() && StampedSince(st.gate, sym, at, u.cfg)
    requires e.Receive? ==> e.env.now <= e.env.setAt
    ensures StampedSince(Step(st, e, u).gate, sym, at, u.cfg)
  {
    GateAfter(st, e, u);
    hide Step;
  }

  /** The clock does not run backwards inside a turn. */
  ghost predicate TurnsForward(es: seq<Event>) {
    forall e :: e in es && e.Receive? ==> e.env.now <= e.env.setAt
  }

  lemma {:induction false} AllowedStamps(st: State, e: Event, u: Setup)
    requires Allowed(st, e, u)
    ensures StampedSince(Step(st, e, u).gate, SymbolOf(e.s), e.env.setAt, u.cfg)
  {
    GateAfter(st, e, u);
    hide Step;
  }

  /** From an allowed signal on, its symbol carries such a stamp in every later state. */
  lemma {:induction false} CooldownStays(st: State, es: seq<Event>, u: Setup, i: nat, j: nat)
    requires TurnsForward(es) && u.cfg.Valid() && i < j <= |es| && Allowed(At(st, es, u, i), es[i], u)
    ensures StampedSince(At(st, es, u, j).gate, SymbolOf(es[i].s), es[i].env.setAt, u.cfg)
    decreases j
  {
    hide Step, StampedSince, Run;
    AtNext(st, es, u, j - 1);
    AllowedStamps(At(st, es, u, i), es[i], u);
    if i < j - 1 {
      CooldownStays(st, es, u, i, j - 1);
      assert es[j - 1] in es;
      StampKept(At(st, es, u, j - 1), es[j - 1], u, SymbolOf(es[i].s), es[i].env.setAt);
    }
  }

  /** Two allowed signals of one symbol are a full cooldown apart, measured from the stamp
      of the first to the check of the second; and so are two orders. */
  lemma {:induction false} CooldownSpacing(st: State, es: seq<Event>, u: Setup, i: nat, j: nat)
    requires TurnsForward(es) && u.cfg.Valid() && i < j < |es|
    requires Allowed(At(st, es, u, i), es[i], u) && Allowed(At(st, es, u, j), es[j], u)
    requires SymbolOf(es[i].s) == SymbolOf(es[j].s)
    ensures es[j].env.now >= es[i].env.setAt + u.cfg.For(es[i].s.market).cooldownSec * 1000
  {
    CooldownStays(st, es, u, i, j);
  }

  // ----- Daily cap ------------------------------------------------------------

  predicate CountsToward(e: Event, day: DayKey) {
    e.Receive? && DayKey(e.s.market, DayOf(e.env.now)) == day
  }

  /** How many signals of that market and day the run allowed, and how many it ordered. */
  function AllowedOn(st: State, es: seq<Event>, u: Setup, day: DayKey): nat {
    if es == [] then 0
    else
      var e, before := es[|es| - 1], es[..|es| - 1];
      AllowedOn(st, before, u, day) + (if CountsToward(e, day) && Allowed(Run(st, before, u), e, u) then 1 else 0)
  }

  function OrderedOn(st: State, es: seq<Event>, u: Setup, day: DayKey): nat {
    if es == [] then 0
    else
      var e, before := es[|es| - 1], es[..|es| - 1];
      OrderedOn(st, before, u, day) + (if CountsToward(e, day) && Orders(Run(st, before, u), e, u) then 1 else 0)
  }

  /** An event resets a counter, raises it by the signal it allows, or leaves it. */
  lemma {:induction false} CountStep(st: State, e: Event, u: Setup, day: DayKey)
    ensures CountAt(Step(st, e, u).gate, day)
        == if e == ResetCount(day) then 0
           else CountAt(st.gate, day) + (if CountsToward(e, day) && Allowed(st, e, u) then 1 else 0)
    ensures CountsToward(e, day) && Allowed(st, e, u) ==> CountAt(st.gate, day) < u.cfg.For(day.market).dailyCap
  {
    GateAfter(st, e, u);
    hide Step, RunnerPaused, IsSignal;
  }

  /** Between resets the counter goes up by exactly the signals allowed. It never ends above
      the larger of the cap and its starting value, so neither do the orders of a day that
      starts at zero. */
  lemma {:induction false} DailyCapHolds(st: State, es: seq<Event>, u: Setup, day: DayKey)
    requires ResetCount(day) !in es
    ensures CountAt(Run(st, es, u).gate, day) == CountAt(st.gate, day) + AllowedOn(st, es, u, day)
    ensures AllowedOn(st, es, u, day) > 0 ==> CountAt(Run(st, es, u).gate, day) <= u.cfg.For(day.market).dailyCap
    ensures OrderedOn(st, es, u, day) <= AllowedOn(st, es, u, day)
  {
    if es == [] {
    } else {
      var e, before := es[|es| - 1], es[..|es| - 1];
      DailyCapHolds(st, before, u, day);
      var mid := Run(st, before, u);
      CountStep(mid, e, u, day);
      if Orders(mid, e, u) {
        OrdersAreAllowed(mid, e, u);
      }
      hide Step, Orders, Allowed, CountAt, CountsToward;
    }
  }

  // ----- Pause and kill switch ------------------------------------------------

  predicate WritesPause(e: Event) { e.SetPause? || e.ClearPause? }

  lemma {:induction false} PausedStep(st: State, e: Event, u: Setup)
    requires RiskPaused(st.pause) && !WritesPause(e)
    ensures Step(st, e, u).pause == st.pause && !Orders(st, e, u)
  {
    hide RiskPaused, RunnerPaused, GateCheck;
  }

  /** While the pause key reads as paused and nobody touches it, no signal of any market is
      ordered and the key stays. */
  lemma {:induction false} PauseStopsAll(st: State, es: seq<Event>, u: Setup, i: nat, j: nat)
    requires i <= j < |es| && RiskPaused(At(st, es, u, i).pause)
    requires forall k :: i <= k <= j ==> !WritesPause(es[k])
    ensures At(st, es, u, j).pause == At(st, es, u, i).pause && !Orders(At(st, es, u, j), es[j], u)
    decreases j
  {
    hide RiskPaused, Step, Orders;
    if i < j {
      PauseStopsAll(st, es, u, i, j - 1);
      AtNext(st, es, u, j - 1);
      PausedStep(At(st, es, u, j - 1), es[j - 1], u);
    }
    PausedStep(At(st, es, u, j), es[j], u);
  }

  // ----- When a market can order ----------------------------------------------

  function Text(n: nat): string { seq(n, _ => 'x') }

  lemma {:induction false} LongerThanAll(texts: set<string>) returns (n: nat)
    ensures forall t :: t in texts ==> |t| < n
    decreases texts
  {
    if texts == {} {
      n := 0;
    } else {
      var t :| t in texts;
      var k := LongerThanAll(texts - {t});
      n := if |t| < k then k else |t| + 1;
    }
  }

  /** A symbol the validator admits and the cooldown does not block at that instant. */
  predicate FreeSymbol(st: State, u: Setup, m: Market, symbol: string, now: int) {
    ValidSymbol(symbol) && !Cooling(st.gate, SymbolKey(m, symbol), u.cfg.For(m), now)
  }

  /** What has to be so for anything to be ordered in a market at an instant, besides the
      pause key: read off the keys and settings alone. */
  ghost predicate MarketOpen(st: State, u: Setup, m: Market, now: int) {
    && !RiskPaused(st.facts.compatPause) && u.HasBroker(m) && LossOk(st.facts, m, u.lim.For(m))
    && CountAt(st.gate, DayKey(m, DayOf(now))) < u.cfg.For(m).dailyCap
    && exists symbol :: FreeSymbol(st, u, m, symbol, now)
  }

  /** Some signal of the market, checked at that instant, is ordered. */
  ghost predicate CanOrder(st: State, u: Setup, m: Market, now: int) {
    exists e: Event :: e.Receive? && e.s.market == m && e.env.now == now && Orders(st, e, u)
  }

  /** A signal id the gate and the executor have never seen passes with a free symbol where
      the day's count leaves room. */
  lemma {:induction false} NewIdPasses(st: State, u: Setup, m: Market, symbol: string, now: int) returns (id: string)
    requires CountAt(st.gate, DayKey(m, DayOf(now))) < u.cfg.For(m).dailyCap && FreeSymbol(st, u, m, symbol, now)
    ensures GateCheck(st.gate, SignalKey(m, id), symbol, u.cfg.For(m), now, now).1 == Ok
    ensures SignalKey(m, id) !in st.locks
  {
    var ids := set k: SignalKey | k in st.gate.dedupe.Keys + st.locks.Keys :: k.id;
    var n := LongerThanAll(ids);
    id := Text(n);
    assert SignalKey(m, id) in st.gate.dedupe.Keys + st.locks.Keys ==> SignalKey(m, id).id in ids;
  }

  function Signalled(
      m: Market, id: string, symbol: string, family: string, d: Direction, now: int, cash: real, r: Reply): Event
  {
    Receive(SignalFields(id, None, m, symbol, family, d, 1.0, 1.0),
            Env(now, now, now, true, RiskView(now / 1000, Some(cash)), r))
  }

  const PLAIN_REPLY := Replied("SUBMITTED", true, 0)

  /** A market can order at an instant exactly when the pause key does not read as paused and
      the market is open. */
  lemma {:induction false} CanOrderIff(st: State, u: Setup, m: Market, now: int)
    ensures CanOrder(st, u, m, now) <==> !RiskPaused(st.pause) && MarketOpen(st, u, m, now)
  {
    hide RiskPaused, RunnerPaused, Orders;
    if !RiskPaused(st.pause) && MarketOpen(st, u, m, now) {
      var symbol :| FreeSymbol(st, u, m, symbol, now);
      var id := NewIdPasses(st, u, m, symbol, now);
      var e := Signalled(m, id, symbol, "", Exit, now, 0.0, PLAIN_REPLY);
      if RunnerPaused(st.pause) {
        RunnerPauseIsRiskPause(st.pause);
      }
      OrdersIff(st, e, u);
      hide GateCheck;
    }
    forall e: Event | e.Receive? && e.s.market == m && e.env.now == now && Orders(st, e, u)
      ensures !RiskPaused(st.pause) && MarketOpen(st, u, m, now)
    {
      OrdersIff(st, e, u);
      assert FreeSymbol(st, u, m, e.s.symbol, now);
    }
  }

  /** No signal whatever is ordered. */
  ghost predicate Halted(st: State, u: Setup) { forall m, now :: !CanOrder(st, u, m, now) }

  /** The kill switch closes the losing market as long as its PnL stays. It halts the others
      exactly when it found no pause value, its write being conditional on the key being
      absent; if it found one, each goes on ordering whenever it is open. */
  lemma {:induction false} KillSwitchLatchesIff(st: State, e: Event, u: Setup)
    requires KillSwitchFires(st, e, u)
    ensures var st' := Step(st, e, u);
      && (forall m, now :: CanOrder(st', u, m, now) <==> st.pause != None && MarketOpen(st', u, m, now))
      && (Halted(st', u) <==> st.pause == None || forall m, now :: !MarketOpen(st', u, m, now))
      && (forall now :: !MarketOpen(st', u, e.s.market, now))
      && (RiskPaused(st'.pause) <==> st.pause == None)
  {
    var st' := Step(st, e, u);
    KillSwitchWrites(st, e, u);
    hide KillSwitchFires, Step, RiskPaused;
    forall m, now ensures CanOrder(st', u, m, now) <==> st.pause != None && MarketOpen(st', u, m, now) {
      CanOrderIff(st', u, m, now);
      hide CanOrder, MarketOpen;
    }
    hide CanOrder;
  }

  lemma {:induction false} KillSwitchWrites(st: State, e: Event, u: Setup)
    requires KillSwitchFires(st, e, u)
    ensures !RiskPaused(st.pause) && (RiskPaused(Step(st, e, u).pause) <==> st.pause == None)
    ensures st.pause != None ==> Step(st, e, u).pause == st.pause
    ensures !LossOk(Step(st, e, u).facts, e.s.market, u.lim.For(e.s.market))
  {
    hide GateCheck, StripLeft, StripRight, Lower, RunnerPaused, OpenIn, PendingNotionals, Scan;
    TrueIsPaused();
  }

  lemma {:induction false} TrueIsPaused()
    ensures RiskPaused(Some("true"))
  {
    assert StripLeft("true") == "true" && StripRight("true") == "true";
    assert Lower("true") == "true";
  }

  /** After a kill switch that found the key absent, no signal of any market is ordered until
      somebody sets or clears the key. */
  lemma {:induction false} KillSwitchStopsAll(st: State, es: seq<Event>, u: Setup, i: nat, j: nat)
    requires i < j < |es| && KillSwitchFires(At(st, es, u, i), es[i], u) && At(st, es, u, i).pause == None
    requires forall k :: i < k <= j ==> !WritesPause(es[k])
    ensures !Orders(At(st, es, u, j), es[j], u)
  {
    KillSwitchWrites(At(st, es, u, i), es[i], u);
    AtNext(st, es, u, i);
    hide Step, Orders, KillSwitchFires, RiskPaused;
    PauseStopsAll(st, es, u, i + 1, j);
  }

  // A market whose loss limit is crossed, and one without trades, under plain settings.
  const PLAIN := MarketConfig(300, 15, 604800)
  const LIMITS := Limits(3, -50000.0, 1.0)
  const SETUP := Setup(Config(PLAIN, PLAIN, PLAIN), RiskConfig(LIMITS, LIMITS, LIMITS), {COIN})
  const NO_FACTS := Facts(None, map[], map[], map[], map[], map[])
  const FRESH := State(Gate(map[], map[], map[]), map[], None, [], {}, NO_FACTS)
  const LOSS := FRESH.(facts := NO_FACTS.(realized := map[KR := Amount(-60000.0)]))
  const LOSING := Signalled(KR, "a", "005930", "", Long, 0, 1000.0, PLAIN_REPLY)

  /** The documented way to go live is to set the pause key to "false". From then on the
      kill switch refuses the losing market's signals but no longer stops the others. */
  lemma {:induction false} FalsePauseDisarmsKillSwitch(now: int)
    ensures var armed := Step(LOSS, SetPause("false"), SETUP);
      KillSwitchFires(armed, LOSING, SETUP) && CanOrder(Step(armed, LOSING, SETUP), SETUP, COIN, now)
  {
    FalseIsNotPaused();
    hide RiskPaused, RunnerPaused;
    var armed := LOSS.(pause := Some("false"));
    LosingTurn(armed);
    var st' := Step(armed, LOSING, SETUP);
    assert FreeSymbol(st', SETUP, COIN, "KRW-BTC", now);
    CanOrderIff(st', SETUP, COIN, now);
  }

  lemma {:induction false} LosingTurn(st: State)
    requires !RiskPaused(st.pause) && !RunnerPaused(st.pause) && !RiskPaused(None)
    requires st == LOSS.(pause := st.pause) && st.pause.Some?
    ensures KillSwitchFires(st, LOSING, SETUP)
    ensures var st' := Step(st, LOSING, SETUP);
      && st'.pause == st.pause && st'.facts == st.facts
      && (forall k :: k in st'.gate.cooldown ==> k.market == KR)
      && (forall k :: k in st'.gate.counts ==> k.market == KR)
  {
    assert ValidSymbol("005930");
    NothingOpen(KR);
    hide RiskPaused, RunnerPaused, OpenIn, ValidSymbol;
  }

  lemma {:induction false} NothingOpen(m: Market)
    ensures OpenIn({}, m) == 0 && Scan([], m) == []
  {
    assert (set k: SymbolKey | k in {} && k.market == m) == {};
  }

  lemma {:induction false} FalseIsNotPaused()
    ensures !RiskPaused(Some("false")) && !RunnerPaused(Some("false")) && !RiskPaused(None)
  {
    assert StripLeft("false") == "false" && StripRight("false") == "false";
    assert Lower("false")[0] == 'f';
  }
}
