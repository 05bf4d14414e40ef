/** From queued signal to broker order: the runner loop over strategy gate, risk engine and
    executor, and what whole runs of it can and cannot do. */
module Pipeline {
  import opened Common
  import opened Domain
  import opened Strategy

  // ----- Pause values ---------------------------------------------------------

  /** What Python's `strip` takes off. */
  predicate IsBlank(c: char) {
    var n := c as int;
    || 9 <= n <= 13 || 28 <= n <= 32 || n in {133, 160, 5760, 8232, 8233, 8239, 8287, 12288} || 8192 <= n <= 8202
  }

  function Lower(s: string): (r: string)
    ensures |r| == |s|
  {
    seq(|s|, i requires 0 <= i < |s| => if 'A' <= s[i] <= 'Z' then s[i] - 'A' + 'a' else s[i])
  }

  function StripLeft(s: string): string {
    if s != [] && IsBlank(s[0]) then StripLeft(s[1..]) else s
  }

  function StripRight(s: string): string {
    if s != [] && IsBlank(s[|s| - 1]) then StripRight(s[..|s| - 1]) else s
  }

  /** The risk engine's reading of a pause key. */
  predicate RiskPaused(v: Option<string>) {
    v.Some? && Lower(StripRight(StripLeft(v.value))) in {"true", "1", "yes"}
  }

  /** The runner's own, stricter reading before it pops a signal. */
  predicate RunnerPaused(v: Option<string>) {
    v.Some? && Lower(v.value) in {"true", "1"}
  }

  /** Whatever makes the runner wait makes the risk engine refuse. */
  lemma {:induction false} RunnerPauseIsRiskPause(v: Option<string>)
    requires RunnerPaused(v)
    ensures RiskPaused(v)
  {
    var s, low := v.value, Lower(v.value);
    assert low == "true" || low == "1";
    assert low[0] == 't' || low[0] == '1';
    assert low[|s| - 1] == 'e' || low[|s| - 1] == '1';
  }

  // ----- Risk engine ----------------------------------------------------------

  datatype Direction = Long | Exit

  /** A signal as it comes from the queue. `ageSec` is `None` when the timestamp cannot be
      compared, in which case the source lets the signal through; `family` is the signal
      family inferred from it, or empty. */
  datatype SignalFields = SignalFields(
    id: string, ageSec: Option<real>, market: Market, symbol: string, family: string,
    direction: Direction, price: real, sizeCash: real)

  predicate SymbolChar(c: char) { 'A' <= c <= 'Z' || '0' <= c <= '9' || c == '-' }

  /** The symbol pattern: one to twelve capitals, digits or dashes. Python's `$` also matches
      in front of one final line break. */
  predicate ValidSymbol(symbol: string) {
    var body := if symbol != "" && symbol[|symbol| - 1] == '\n' then symbol[..|symbol| - 1] else symbol;
    1 <= |body| <= 12 && forall c :: c in body ==> SymbolChar(c)
  }

  predicate IsSignal(f: SignalFields) { f.price > 0.0 && f.sizeCash > 0.0 && ValidSymbol(f.symbol) }

  /** A signal that passed the validator. */
  type Signal = f: SignalFields | IsSignal(f)
    witness SignalFields("", None, KR, "A", "", Long, 1.0, 1.0)

  datatype Cell = Missing | Corrupt | Amount(value: real)

  datatype Mode = Live | ShadowOnly | Off

  /** Status and metadata of one order. `firstSeen` is `None` unless the field holds digits;
      unreadable numbers are `None`. */
  datatype OrderMeta = OrderMeta(
    symbol: string, status: string, side: string, firstSeen: Option<int>, qty: Option<real>, price: Option<real>)

  /** What a turn reads from the clock and the broker's account. */
  datatype RiskView = RiskView(nowSec: int, availableCash: Option<real>)

  datatype FamilyKey = FamilyKey(market: Market, family: string)

  /** The keys other processes keep and the rules read: pauses, canary bypasses, family modes
      (environment and Redis together), position quantities and realized PnL. */
  datatype Facts = Facts(
    compatPause: Option<string>, marketPause: map<Market, string>, bypass: map<FamilyKey, string>,
    modes: map<FamilyKey, Mode>, held: map<SymbolKey, Cell>, realized: map<Market, Cell>)

  function Lookup<K, V>(m: map<K, V>, k: K): Option<V> { if k in m then Some(m[k]) else None }

  function CellAt<K>(m: map<K, Cell>, k: K): Cell { if k in m then m[k] else Missing }

  const CANARY := "type_b_alt_"

  /** Canary families are off, all others live, unless their mode is set. */
  function ModeOf(f: Facts, m: Market, family: string): Mode {
    if FamilyKey(m, family) in f.modes then f.modes[FamilyKey(m, family)] else if CANARY <= family then Off else Live
  }

  datatype Limits = Limits(maxConcurrent: int, lossLimit: real, allocationPct: real)

  datatype RiskConfig = RiskConfig(kr: Limits, us: Limits, coin: Limits) {
    function For(m: Market): Limits {
      match m
      case KR => kr
      case US => us
      case COIN => coin
    }
  }

  /** An order the broker has taken. It is `known` once its Redis keys are written. `booked`
      is history the source does not keep: whether its fill has become a position. */
  datatype Order = Order(market: Market, meta: OrderMeta, known: bool, booked: bool)

  /** The keys the pipeline decides by; `index` holds the position indexes. */
  datatype State = State(
    gate: Gate, locks: map<SignalKey, int>, pause: Option<string>, orders: seq<Order>, index: set<SymbolKey>,
    facts: Facts)

  /** What a scan of a market's order metadata finds. */
  function Scan(orders: seq<Order>, m: Market): seq<OrderMeta> {
    if orders == [] then []
    else
      var o := orders[|orders| - 1];
      Scan(orders[..|orders| - 1], m) + (if o.market == m && o.known then [o.meta] else [])
  }

  function OpenIn(index: set<SymbolKey>, m: Market): nat { |set k | k in index && k.market == m| }

  datatype RiskDecision =
    | RiskOk | Paused | FamilyShadowOnly | FamilyDisabled | PositionCorrupt | DuplicatePosition
    | MaxConcurrent | PnlCorrupt | KillSwitch | SnapshotError | AllocationExceeded

  const RESERVE_SEC := 900

  predicate CountsAsPending(o: OrderMeta, nowSec: int) {
    && o.status == "SUBMITTED" && o.side == "BUY"
    && o.firstSeen.Some? && o.firstSeen.value >= nowSec - RESERVE_SEC
    && o.qty.Some? && o.price.Some?
  }

  function Notional(o: OrderMeta): real
    requires o.qty.Some? && o.price.Some?
  {
    o.qty.value * o.price.value
  }

  function PendingNotionals(orders: seq<OrderMeta>, nowSec: int): seq<real> {
    if orders == [] then []
    else
      var o, earlier := orders[|orders| - 1], PendingNotionals(orders[..|orders| - 1], nowSec);
      if CountsAsPending(o, nowSec) then earlier + [Notional(o)] else earlier
  }

  /** The scan for recently submitted buys. */
  method RecentSubmittedBuyOrders(orders: seq<OrderMeta>, nowSec: int) returns (notionals: seq<real>)
    ensures notionals == PendingNotionals(orders, nowSec)
  {
    notionals := [];
    for i := 0 to |orders|
      invariant notionals == PendingNotionals(orders[..i], nowSec)
    {
      assert orders[..i + 1][..i] == orders[..i];
      var o := orders[i];
      hide Notional;
      if o.status != "SUBMITTED" { continue; }
      if o.side != "BUY" { continue; }
      if o.firstSeen.None? || o.firstSeen.value < nowSec - RESERVE_SEC { continue; }
      if o.qty.None? || o.price.None? { continue; }
      notionals := notionals + [Notional(o)];
    }
    assert orders[..|orders|] == orders;
  }

  /** Exit signals and live, opted-in canary families pass a market pause. */
  predicate BypassAllowed(f: Facts, s: SignalFields) {
    s.direction.Exit? || CanaryOptedIn(f, s.market, s.family)
  }

  predicate CanaryOptedIn(f: Facts, m: Market, family: string) {
    CANARY <= family && ModeOf(f, m, family).Live? && RiskPaused(Lookup(f.bypass, FamilyKey(m, family)))
  }

  /** The six rules in order. */
  function RiskRules(st: State, s: SignalFields, v: RiskView, lim: Limits): RiskDecision {
    var entering, f := s.direction.Long?, st.facts;
    var held, realized := CellAt(f.held, SymbolKey(s.market, s.symbol)), CellAt(f.realized, s.market);
    var pending := PendingNotionals(Scan(st.orders, s.market), v.nowSec);
    if RiskPaused(st.pause) || RiskPaused(f.compatPause) then Paused
    else if RiskPaused(Lookup(f.marketPause, s.market)) && !BypassAllowed(f, s) then Paused
    else if entering && s.family != "" && ModeOf(f, s.market, s.family).ShadowOnly? then FamilyShadowOnly
    else if entering && s.family != "" && ModeOf(f, s.market, s.family).Off? then FamilyDisabled
    else if entering && held.Corrupt? then PositionCorrupt
    else if entering && held.Amount? && held.value > 0.0 then DuplicatePosition
    else if entering && OpenIn(st.index, s.market) + |pending| >= lim.maxConcurrent then MaxConcurrent
    else if realized.Corrupt? then PnlCorrupt
    else if realized.Amount? && realized.value <= lim.lossLimit then KillSwitch
    else if entering && (v.availableCash.None? || v.availableCash.value <= 0.0) then SnapshotError
    else if entering && s.sizeCash > Max(0.0, v.availableCash.value - Sum(pending)) * lim.allocationPct
    then AllocationExceeded
    else RiskOk
  }

  /** SET NX: the kill switch writes the pause key only when no value is there. */
  function PauseAfter(pause: Option<string>, d: RiskDecision): Option<string> {
    if d.KillSwitch? && pause.None? then Some("true") else pause
  }

  // ----- Executor -------------------------------------------------------------

  const IDEMPOTENCY_MS := 6 * 60 * 60 * 1000

  /** The KIS client sends an order up to three times when it gets no good answer; each
      sending may have been accepted. The other clients send once. */
  const KIS_ATTEMPTS := 3

  function Attempts(m: Market): (n: nat)
    ensures n >= 1
  {
    if m.KR? then KIS_ATTEMPTS else 1
  }

  function Copies(o: Order, n: nat): seq<Order> { if n == 0 then [] else Copies(o, n - 1) + [o] }

  function AtMost(n: nat, bound: nat): nat { if n <= bound then n else bound }

  /** The reply to `place_order`. A call can raise although orders were accepted, an answer can
      hide orders accepted before it, and Redis can raise before an order's keys are written. */
  datatype Reply = Raises(accepted: nat) | Replied(status: string, written: bool, hidden: nat)

  /** What one turn of the loop meets: clock readings in order, the data guard, the broker's
      account, and the broker's reply. */
  datatype Env = Env(now: int, setAt: int, lockAt: int, guardAllows: bool, risk: RiskView, reply: Reply)

  /** The settings of the process; the Korean broker is always there. */
  datatype Setup = Setup(cfg: Config, lim: RiskConfig, brokers: set<Market>) {
    predicate HasBroker(m: Market) { m.KR? || m in brokers }
  }

  /** How one turn ended. `Ordered` means that `place_order` was called. */
  datatype Outcome =
    | Idle | Invalid | Stale | GuardBlocked | StrategyRejected(decision: Decision) | NotConfigured
    | RiskRejected(reason: RiskDecision) | LockHeld | BuildFailed | Ordered(reply: Reply)

  function KeyOf(s: SignalFields): SignalKey { SignalKey(s.market, s.id) }

  /** Korean shares come in whole numbers; less than one share cannot be ordered. */
  predicate CanBuild(s: Signal) { s.market.KR? ==> (s.sizeCash / s.price).Floor > 0 }

  function OrderQty(s: Signal): real {
    if s.market.KR? then (s.sizeCash / s.price).Floor as real else s.sizeCash / s.price
  }

  /** The order of a signal, with the metadata as the executor writes it: without a stamp. */
  function OrderOf(s: Signal, status: string, known: bool): Order {
    var side := if s.direction.Long? then "BUY" else "SELL";
    Order(s.market, OrderMeta(s.symbol, status, side, None, Some(OrderQty(s)), Some(s.price)), known, false)
  }

  /** The orders the broker has taken by the time the call ends. */
  function OrdersAfter(orders: seq<Order>, s: Signal, r: Reply): seq<Order> {
    var unknown := OrderOf(s, "SUBMITTED", false);
    match r
    case Raises(n) => orders + Copies(unknown, AtMost(n, Attempts(s.market)))
    case Replied(status, written, hidden) =>
      orders + Copies(unknown, AtMost(hidden, Attempts(s.market) - 1)) + [OrderOf(s, status, written)]
  }

  /** `execute_signal`: risk check, signal lock, order, and the lock freed on an exception. */
  function Execute(st: State, s: Signal, env: Env, lim: Limits): (State, Outcome) {
    var d := RiskRules(st, s, env.risk, lim);
    var checked := st.(pause := PauseAfter(st.pause, d));
    if d != RiskOk then (checked, RiskRejected(d))
    else if Alive(checked.locks, KeyOf(s), env.lockAt) then (checked, LockHeld)
    else if !CanBuild(s) then (checked.(locks := checked.locks - {KeyOf(s)}), BuildFailed)
    else
      var locks := if env.reply.Raises? then checked.locks - {KeyOf(s)}
          else checked.locks[KeyOf(s) := env.lockAt + IDEMPOTENCY_MS];
      (checked.(locks := locks, orders := OrdersAfter(st.orders, s, env.reply)), Ordered(env.reply))
  }

  const SIGNAL_MAX_AGE_SEC := 300.0

  /** One turn of the runner with `f` at the head of the queue. */
  function Turn(st: State, f: SignalFields, env: Env, u: Setup): (State, Outcome) {
    if RunnerPaused(st.pause) then (st, Idle)
    else if !IsSignal(f) then (st, Invalid)
    else if f.ageSec.Some? && f.ageSec.value > SIGNAL_MAX_AGE_SEC then (st, Stale)
    else if !env.guardAllows then (st, GuardBlocked)
    else
      var (gate, d) := GateCheck(st.gate, KeyOf(f), f.symbol, u.cfg.For(f.market), env.now, env.setAt);
      var gated := st.(gate := gate);
      if d != Ok then (gated, StrategyRejected(d))
      else if !u.HasBroker(f.market) then (gated, NotConfigured)
      else Execute(gated, f, env, u.lim.For(f.market))
  }

  // ----- The pipeline as the source runs it -----------------------------------

  class Executor {
    var locks: map<SignalKey, int>
    var pause: Option<string>
    var orders: seq<Order>
    var index: set<SymbolKey>
    var facts: Facts

    function View(gate: Gate): State
      reads this
    {
      State(gate, locks, pause, orders, index, facts)
    }

    /** The risk engine walks its rules in order and stops at the first refusal. */
    method RiskCheck(s: Signal, v: RiskView, lim: Limits, ghost gate: Gate) returns (d: RiskDecision)
      modifies this`pause
      ensures d == RiskRules(old(View(gate)), s, v, lim)
      ensures pause == PauseAfter(old(pause), d)
    {
      hide RiskPaused, BypassAllowed, PendingNotionals, Scan, OpenIn, Sum, Max, ModeOf;
      if RiskPaused(pause) || RiskPaused(facts.compatPause) {
        return Paused;
      }
      if RiskPaused(Lookup(facts.marketPause, s.market)) && !BypassAllowed(facts, s) {
        return Paused;
      }
      var entering := s.direction == Long;
      var pending := RecentSubmittedBuyOrders(Scan(orders, s.market), v.nowSec);
      if entering {
        var mode := ModeOf(facts, s.market, s.family);
        if s.family != "" && mode != Live {
          return if mode == ShadowOnly then FamilyShadowOnly else FamilyDisabled;
        }
        var held := CellAt(facts.held, SymbolKey(s.market, s.symbol));
        if held == Corrupt {
          return PositionCorrupt;
        }
        if held.Amount? && held.value > 0.0 {
          return DuplicatePosition;
        }
        if OpenIn(index, s.market) + |pending| >= lim.maxConcurrent {
          return MaxConcurrent;
        }
      }
      var realized := CellAt(facts.realized, s.market);
      if realized == Corrupt {
        return PnlCorrupt;
      }
      if realized.Amount? && realized.value <= lim.lossLimit {
        ApplyKillSwitch();
        return KillSwitch;
      }
      if entering {
        if v.availableCash.None? || v.availableCash.value <= 0.0 {
          return SnapshotError;
        }
        var cap := Max(0.0, v.availableCash.value - Sum(pending)) * lim.allocationPct;
        if s.sizeCash > cap {
          return AllocationExceeded;
        }
      }
      return RiskOk;
    }

    method ApplyKillSwitch()
      modifies this`pause
      ensures pause == if old(pause).None? then Some("true") else old(pause)
    {
      if pause == None {
        pause := Some("true");
      }
    }

    method LockSignal(key: SignalKey, now: int) returns (locked: bool)
      modifies this`locks
      ensures locked <==> !Alive(old(locks), key, now)
      ensures locks == if locked then old(locks)[key := now + IDEMPOTENCY_MS] else old(locks)
    {
      locked := !(key in locks && now < locks[key]);
      if locked {
        locks := locks[key := now + IDEMPOTENCY_MS];
      }
    }

    method ExecuteSignal(s: Signal, env: Env, lim: Limits, ghost gate: Gate) returns (out: Outcome)
      modifies this
      ensures (View(gate), out) == Execute(old(View(gate)), s, env, lim)
    {
      var d := RiskCheck(s, env.risk, lim, gate);
      if d != RiskOk {
        return RiskRejected(d);
      }
      ghost var before := locks;
      var locked := LockSignal(KeyOf(s), env.lockAt);
      if !locked {
        return LockHeld;
      }
      if !CanBuild(s) {
        locks := locks - {KeyOf(s)};
        assert locks == before - {KeyOf(s)};
        return BuildFailed;
      }
      orders := OrdersAfter(orders, s, env.reply);
      if env.reply.Raises? {
        locks := locks - {KeyOf(s)};
        assert locks == before - {KeyOf(s)};
      }
      return Ordered(env.reply);
    }
  }

  class Runner {
    const strategy: StrategyEngine
    const executor: Executor

    ghost function View(): State
      reads strategy, executor
    {
      executor.View(strategy.View())
    }

    constructor (strategy: StrategyEngine, executor: Executor)
      ensures this.strategy == strategy && this.executor == executor
    {
      this.strategy, this.executor := strategy, executor;
    }

    /** The loop body of the runner. */
    method HandleNext(f: SignalFields, env: Env, u: Setup) returns (out: Outcome)
      modifies strategy, executor
      ensures (View(), out) == Turn(old(View()), f, env, u)
    {
      if RunnerPaused(executor.pause) {
        return Idle;
      }
      if !IsSignal(f) {
        return Invalid;
      }
      if f.ageSec.Some? && f.ageSec.value > SIGNAL_MAX_AGE_SEC {
        return Stale;
      }
      if !env.guardAllows {
        return GuardBlocked;
      }
      var d := strategy.Check(KeyOf(f), f.symbol, u.cfg.For(f.market), env.now, env.setAt);
      if d != Ok {
        return StrategyRejected(d);
      }
      if !u.HasBroker(f.market) {
        return NotConfigured;
      }
      out := executor.ExecuteSignal(f, env, u.lim.For(f.market), strategy.View());
    }
  }
}
