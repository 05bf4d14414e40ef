/** The strategy gate told by its past: what it decides next follows from the earlier signals
    alone, over every run that starts with empty keys. */
module GateHistory {
  import opened Common
  import opened Domain
  import opened Strategy
  import opened Pipeline
  import opened PipelineSafety

  /** Some signal of that id passed the duplicate check less than a window before `now`. */
  predicate RecentlySeen(st: State, es: seq<Event>, u: Setup, id: SignalKey, now: int) {
    es != [] &&
    var e, front := es[|es| - 1], es[..|es| - 1];
    || RecentlySeen(st, front, u, id, now)
    || (Seen(Run(st, front, u), e, u) && KeyOf(e.s) == id && now - e.env.now < u.cfg.For(id.market).dedupeTtlSec * 1000)
  }

  /** Some signal of that symbol was allowed less than a cooldown before `now`. */
  predicate RecentlyAllowed(st: State, es: seq<Event>, u: Setup, sym: SymbolKey, now: int) {
    es != [] &&
    var e, front := es[|es| - 1], es[..|es| - 1];
    || RecentlyAllowed(st, front, u, sym, now)
    || (Allowed(Run(st, front, u), e, u) && SymbolOf(e.s) == sym
        && now - e.env.setAt < u.cfg.For(sym.market).cooldownSec * 1000)
  }

  /** How many signals of that market and day were allowed since its counter was last reset. */
  function AllowedSinceReset(st: State, es: seq<Event>, u: Setup, day: DayKey): nat {
    if es == [] || es[|es| - 1] == ResetCount(day) then 0
    else
      var e, front := es[|es| - 1], es[..|es| - 1];
      AllowedSinceReset(st, front, u, day)
      + (if Allowed(Run(st, front, u), e, u) && CountsToward(e, day) then 1 else 0)
  }

  ghost predicate StartsEmpty(st: State) { st.gate == Gate(map[], map[], map[]) }

  lemma {:induction false} OnFileIffRecentlySeen(st: State, es: seq<Event>, u: Setup, id: SignalKey, now: int)
    requires StartsEmpty(st) && u.cfg.Valid()
    ensures Alive(Run(st, es, u).gate.dedupe, id, now) <==> RecentlySeen(st, es, u, id, now)
  {
    if es == [] {
    } else {
      var e, front := es[|es| - 1], es[..|es| - 1];
      OnFileIffRecentlySeen(st, front, u, id, now);
      GateAfter(Run(st, front, u), e, u);
      hide Step, ReachesGate;
    }
  }

  lemma {:induction false} CoolingIffRecentlyAllowed(st: State, es: seq<Event>, u: Setup, sym: SymbolKey, now: int)
    requires StartsEmpty(st) && u.cfg.Valid() && TurnsForward(es)
    ensures Cooling(Run(st, es, u).gate, sym, u.cfg.For(sym.market), now) <==> RecentlyAllowed(st, es, u, sym, now)
    ensures var g := Run(st, es, u).gate.cooldown;
      sym in g ==> g[sym].expiry == g[sym].last + u.cfg.For(sym.market).cooldownSec * 1000
  {
    if es == [] {
    } else {
      var e, front := es[|es| - 1], es[..|es| - 1];
      assert e in es;
      CoolingIffRecentlyAllowed(st, front, u, sym, now);
      GateAfter(Run(st, front, u), e, u);
      hide Step, ReachesGate;
    }
  }

  lemma {:induction false} CountIsAllowedSinceReset(st: State, es: seq<Event>, u: Setup, day: DayKey)
    requires StartsEmpty(st)
    ensures CountAt(Run(st, es, u).gate, day) == AllowedSinceReset(st, es, u, day)
  {
    if es == [] {
    } else {
      var e, front := es[|es| - 1], es[..|es| - 1];
      CountIsAllowedSinceReset(st, front, u, day);
      CountStep(Run(st, front, u), e, u, day);
      hide Step, Allowed, CountAt, CountsToward;
    }
  }

  /** What the gate decides about the next signal that reaches it: refused as a duplicate exactly
      when its id was seen within the window, else for the cooldown exactly when its symbol was
      allowed within it, else for the cap exactly when its market has had its day's signals. */
  lemma {:induction false} GateDecidesByThePast(st: State, es: seq<Event>, u: Setup, e: Event)
    requires StartsEmpty(st) && u.cfg.Valid() && TurnsForward(es) && ReachesGate(Run(st, es, u), e)
    ensures var cfg, day := u.cfg.For(e.s.market), DayKey(e.s.market, DayOf(e.env.now));
      GateDecision(Run(st, es, u), e, u)
      == if RecentlySeen(st, es, u, KeyOf(e.s), e.env.now) then DupSignal
         else if RecentlyAllowed(st, es, u, SymbolOf(e.s), e.env.now) then Cooldown
         else if AllowedSinceReset(st, es, u, day) >= cfg.dailyCap then DailyCap
         else Ok
  {
    OnFileIffRecentlySeen(st, es, u, KeyOf(e.s), e.env.now);
    CoolingIffRecentlyAllowed(st, es, u, SymbolOf(e.s), e.env.now);
    CountIsAllowedSinceReset(st, es, u, DayKey(e.s.market, DayOf(e.env.now)));
    hide Run, RecentlySeen, RecentlyAllowed, AllowedSinceReset, Alive, Cooling, CountAt, ReachesGate;
  }

  /** A day runs from midnight to midnight in Korea: its first instant is fifteen o'clock UTC. */
  lemma {:induction false} DayIsKorean(day: int, now: int)
    ensures DayOf(now) == day <==> 86400000 * day - 32400000 <= now < 86400000 * (day + 1) - 32400000
  {}
}
