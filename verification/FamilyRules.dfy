/** Market pauses and signal families: exactly which signals a paused market still orders, and
    which families may enter. */
module FamilyRules {
  import opened Common
  import opened Domain
  import opened Strategy
  import opened Pipeline
  import opened PipelineSafety

  /** A family that runs by opt-in only: its name begins with "type_b_alt_". */
  predicate IsCanary(family: string) { |family| >= 11 && family[..11] == "type_b_alt_" }

  /** The mode set for a family; without one, canary families are off and all others live. */
  predicate IsLive(f: Facts, m: Market, family: string) {
    var key := FamilyKey(m, family);
    if key in f.modes then f.modes[key] == Mode.Live else !IsCanary(family)
  }

  /** The family is a canary whose mode was set to live and whose bypass key reads as true. */
  predicate MayBypass(f: Facts, m: Market, family: string) {
    var key := FamilyKey(m, family);
    && IsCanary(family) && key in f.modes && f.modes[key] == Mode.Live
    && key in f.bypass && RiskPaused(Some(f.bypass[key]))
  }

  lemma {:induction false} ModeTells(f: Facts, m: Market, family: string)
    ensures ModeOf(f, m, family).Live? <==> IsLive(f, m, family)
    ensures CanaryOptedIn(f, m, family) <==> MayBypass(f, m, family)
  {
    assert CANARY <= family <==> IsCanary(family);
    if FamilyKey(m, family) !in f.bypass {
      assert !RiskPaused(None);
    }
    hide RiskPaused;
  }

  /** The same state without the market's pause key. */
  function Unpaused(st: State, m: Market): State {
    st.(facts := st.facts.(marketPause := st.facts.marketPause - {m}))
  }

  lemma {:induction false} SameButForPause(st: State, s: SignalFields, v: RiskView, lim: Limits)
    requires s.market in st.facts.marketPause && RiskPaused(Some(st.facts.marketPause[s.market]))
    ensures WithinLimits(st, s, v, lim)
        <==> WithinLimits(Unpaused(st, s.market), s, v, lim) && BypassAllowed(st.facts, s)
  {
    NoKeyNoPause();
    hide RiskPaused, PendingNotionals, Scan, OpenIn, Sum, Max, CanaryOptedIn;
  }

  lemma {:induction false} NoKeyNoPause()
    ensures !RiskPaused(None)
  {}

  /** A paused market orders of what it would order otherwise just the exits, and the entries of
      canary families that opted in. */
  lemma {:induction false} MarketPauseIff(st: State, e: Event, u: Setup)
    requires e.Receive? && e.s.market in st.facts.marketPause
    requires RiskPaused(Some(st.facts.marketPause[e.s.market]))
    ensures Orders(st, e, u) <==>
      Orders(Unpaused(st, e.s.market), e, u) && (e.s.direction.Exit? || MayBypass(st.facts, e.s.market, e.s.family))
  {
    OrdersIff(st, e, u);
    OrdersIff(Unpaused(st, e.s.market), e, u);
    SameButForPause(st, e.s, e.env.risk, u.lim.For(e.s.market));
    ModeTells(st.facts, e.s.market, e.s.family);
    hide WithinLimits, Orders, RiskPaused, GateCheck, MayBypass, CanaryOptedIn, CanBuild;
  }

  /** The same signal without its family. */
  function Plain(e: Event): Event
    requires e.Receive?
  {
    e.(s := e.s.(family := ""))
  }

  lemma {:induction false} PlainPasses(st: State, e: Event, u: Setup)
    requires e.Receive?
    ensures Allowed(st, e, u) == Allowed(st, Plain(e), u) && KeyOf(e.s) == KeyOf(Plain(e).s)
    ensures Allowed(st, e, u) ==> IsSignal(e.s) && IsSignal(Plain(e).s) && CanBuild(e.s) == CanBuild(Plain(e).s)
  {
    hide GateCheck, RunnerPaused, ValidSymbol;
  }

  lemma {:induction false} PlainWithin(st: State, s: SignalFields, v: RiskView, lim: Limits)
    requires s.market !in st.facts.marketPause
    ensures WithinLimits(st, s, v, lim) <==>
      WithinLimits(st, s.(family := ""), v, lim)
      && (s.direction.Exit? || s.family == "" || ModeOf(st.facts, s.market, s.family).Live?)
  {
    NoKeyNoPause();
    hide RiskPaused, PendingNotionals, Scan, OpenIn, Sum, Max, CanaryOptedIn, ModeOf;
  }

  /** Where the market is not paused, a family's entries are ordered like those without a family if
      the family is live, and never else; exits do not ask for it. */
  lemma {:induction false} FamilyModeIff(st: State, e: Event, u: Setup)
    requires e.Receive? && e.s.market !in st.facts.marketPause
    ensures Orders(st, e, u) <==>
      Orders(st, Plain(e), u)
      && (e.s.direction.Exit? || e.s.family == "" || IsLive(st.facts, e.s.market, e.s.family))
  {
    hide Orders, Allowed, WithinLimits, ModeOf, CanBuild, IsLive;
    OrdersIff(st, e, u);
    OrdersIff(st, Plain(e), u);
    PlainPasses(st, e, u);
    PlainWithin(st, e.s, e.env.risk, u.lim.For(e.s.market));
    ModeTells(st.facts, e.s.market, e.s.family);
  }
}
