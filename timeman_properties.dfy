/*
 * Properties of TimeManagement::init, clear and advance_nodes_time, stated
 * on the functions that the class methods are proved against.
 */
module TimeManProperties {
  import opened TimeMan

  // ----- One call of init -----

  /** init stamps the start time from the limits, also when it returns early. */
  lemma InitStampsStartTime(s: Session, l: Limits, us: Color, ply: int, options: Options, formula: ScaleFormula)
    ensures InitSpec(s, l, us, ply, options, formula).session.startTime == l.startTime
  {
  }

  /** Without a clock for the side to move, init changes nothing but the start time. */
  lemma InitWithoutClock(s: Session, l: Limits, us: Color, ply: int, options: Options, formula: ScaleFormula)
    requires l.time.Get(us) == 0
    ensures InitSpec(s, l, us, ply, options, formula).session == s.(startTime := l.startTime)
    ensures InitSpec(s, l, us, ply, options, formula).limits == l
  {
  }

  /** With the nodestime option set and no quota yet, the quota is the clock converted into nodes. */
  lemma QuotaDerivedWhenEmpty(s: Session, l: Limits, us: Color, ply: int, options: Options, formula: ScaleFormula)
    requires l.time.Get(us) != 0 && options.nodestime != 0 && s.availableNodes == 0
    ensures InitSpec(s, l, us, ply, options, formula).session.availableNodes == options.nodestime * l.time.Get(us)
    ensures InitSpec(s, l, us, ply, options, formula).session.availableNodes != 0
  {
    NonZeroProduct(options.nodestime, l.time.Get(us));
  }

  /** Once there is a quota, init keeps it, whatever the clock and the options say. */
  lemma QuotaKeptWhenSet(s: Session, l: Limits, us: Color, ply: int, options: Options, formula: ScaleFormula)
    requires s.availableNodes != 0
    ensures InitSpec(s, l, us, ply, options, formula).session.availableNodes == s.availableNodes
  {
  }

  /**
   * In nodes-as-time mode init switches the mode on and rewrites the limits
   * of the side to move into nodes; the other side, the horizon and the
   * start time of the limits are left as they were.
   */
  lemma NodesTimeRewritesLimits(s: Session, l: Limits, us: Color, ply: int, options: Options, formula: ScaleFormula)
    requires l.time.Get(us) != 0 && options.nodestime != 0
    ensures var r := InitSpec(s, l, us, ply, options, formula);
      && r.session.useNodesTime
      && r.limits.time.Get(us) == r.session.availableNodes
      && r.limits.inc.Get(us) == l.inc.Get(us) * options.nodestime
      && r.limits.npmsec == options.nodestime
      && r.limits.time.Get(us.Opposite()) == l.time.Get(us.Opposite())
      && r.limits.inc.Get(us.Opposite()) == l.inc.Get(us.Opposite())
      && r.limits.movestogo == l.movestogo
      && r.limits.startTime == l.startTime
  {
  }

  /** With nodestime 0, init leaves the limits, the mode flag and the quota alone. */
  lemma ClockModeKeepsLimits(s: Session, l: Limits, us: Color, ply: int, options: Options, formula: ScaleFormula)
    requires options.nodestime == 0
    ensures InitSpec(s, l, us, ply, options, formula).limits == l
    ensures InitSpec(s, l, us, ply, options, formula).session.useNodesTime == s.useNodesTime
    ensures InitSpec(s, l, us, ply, options, formula).session.availableNodes == s.availableNodes
  {
  }

  /**
   * The budgets are computed from the converted clock: timeLeft, the inputs
   * of the scale formula and the ceiling all use the limits init leaves behind.
   */
  lemma BudgetsFromConvertedClock(s: Session, l: Limits, us: Color, ply: int, options: Options, formula: ScaleFormula)
    requires l.time.Get(us) != 0
    ensures var r := InitSpec(s, l, us, ply, options, formula);
      var time, inc, mtg := r.limits.time.Get(us), r.limits.inc.Get(us), Horizon(l.movestogo);
      var timeLeft := TimeLeft(time, inc, mtg, options.moveOverhead);
      var scales := formula.For(RegimeOf(l.movestogo), ScaleInputs(ply, mtg, time, inc, timeLeft));
      var base := ScaleTime(scales.optScale, timeLeft);
      && r.session.optimumTime == (if options.ponder then PonderBump(base) else base)
      && r.session.maximumTime == MaximumTime(time, options.moveOverhead, scales.maxScale, base)
  {
  }

  /**
   * The maximum stays 10 below the truncated ceiling of 81% of the
   * (converted) remaining time less the move overhead, and 10 below the
   * ceiling itself when that is not negative.  It may be negative.
   */
  lemma MaximumBelowCeiling(s: Session, l: Limits, us: Color, ply: int, options: Options, formula: ScaleFormula)
    requires l.time.Get(us) != 0
    ensures var r := InitSpec(s, l, us, ply, options, formula);
      var ceiling := Ceiling(r.limits.time.Get(us), options.moveOverhead);
      && r.session.maximumTime + SafetyMs <= Trunc(ceiling)
      && (0.0 <= ceiling ==> (r.session.maximumTime + SafetyMs) as real <= ceiling)
  {
    var r := InitSpec(s, l, us, ply, options, formula);
    var time, inc, mtg := r.limits.time.Get(us), r.limits.inc.Get(us), Horizon(l.movestogo);
    var timeLeft := TimeLeft(time, inc, mtg, options.moveOverhead);
    var scales := formula.For(RegimeOf(l.movestogo), ScaleInputs(ply, mtg, time, inc, timeLeft));
    BudgetsFromConvertedClock(s, l, us, ply, options, formula);
    MaximumTimeBounds(time, options.moveOverhead, scales.maxScale, ScaleTime(scales.optScale, timeLeft));
  }

  /** A small clock and a large move overhead give a negative maximum: nothing clamps it at 0. */
  lemma MaximumCanBeNegative()
    ensures var l := Limits(PerColor(5, 5), PerColor(0, 0), 0, 0, 0);
      var formula := ScaleFormula((x: ScaleInputs) => Scales(1.0, 1.0), (x: ScaleInputs) => Scales(1.0, 1.0));
      InitSpec(Session(0, 0, 0, 0, false), l, White, 0, Options(10, 0, false), formula).session.maximumTime == -15
  {
    var l := Limits(PerColor(5, 5), PerColor(0, 0), 0, 0, 0);
    assert TimeLeft(5, 0, 60, 10) == 1;
    assert ScaleTime(1.0, 1) == 1;
    assert Ceiling(5, 10) == -5.95;
    assert Trunc(-5.95) == -5;
  }

  /** Ponder only bumps the optimum by a quarter (C++ division); the maximum does not see it. */
  lemma PonderOnlyBumpsOptimum(s: Session, l: Limits, us: Color, ply: int, options: Options, formula: ScaleFormula)
    requires l.time.Get(us) != 0
    ensures var on := InitSpec(s, l, us, ply, options.(ponder := true), formula);
      var off := InitSpec(s, l, us, ply, options.(ponder := false), formula);
      && on.limits == off.limits
      && on.session.maximumTime == off.session.maximumTime
      && on.session.optimumTime == PonderBump(off.session.optimumTime)
      && on.session == off.session.(optimumTime := on.session.optimumTime)
  {
    BudgetsFromConvertedClock(s, l, us, ply, options.(ponder := true), formula);
    BudgetsFromConvertedClock(s, l, us, ply, options.(ponder := false), formula);
  }

  /** Sudden death (movestogo == 0) uses only its own formula. */
  lemma SuddenDeathIgnoresMovesFormula(s: Session, l: Limits, us: Color, ply: int, options: Options,
                                       formula: ScaleFormula, other: ScaleInputs -> Scales)
    requires l.movestogo == 0
    ensures InitSpec(s, l, us, ply, options, formula) == InitSpec(s, l, us, ply, options, formula.(movesInTime := other))
  {
  }

  /** A moves-to-go time control uses only its own formula. */
  lemma MovesInTimeIgnoresSuddenDeathFormula(s: Session, l: Limits, us: Color, ply: int, options: Options,
                                             formula: ScaleFormula, other: ScaleInputs -> Scales)
    requires l.movestogo != 0
    ensures InitSpec(s, l, us, ply, options, formula) == InitSpec(s, l, us, ply, options, formula.(suddenDeath := other))
  {
  }

  // ----- clear and advance_nodes_time -----

  /** After clear, nodes-as-time mode derives the quota from the new game's clock. */
  lemma ClearRederivesQuota(s: Session, l: Limits, us: Color, ply: int, options: Options, formula: ScaleFormula)
    requires l.time.Get(us) != 0 && options.nodestime != 0
    ensures InitSpec(Cleared(s), l, us, ply, options, formula).session.availableNodes == options.nodestime * l.time.Get(us)
  {
  }

  /**
   * Nodes added by advance_nodes_time are what the next init hands out as the
   * clock, unless they bring the quota back to 0, in which case it is derived
   * from the clock again.
   */
  lemma AdvanceCarriesOver(s: Session, nodes: int, l: Limits, us: Color, ply: int, options: Options, formula: ScaleFormula)
    requires s.useNodesTime && l.time.Get(us) != 0 && options.nodestime != 0
    ensures var r := InitSpec(Advanced(s, nodes), l, us, ply, options, formula);
      && (s.availableNodes + nodes != 0 ==>
            r.session.availableNodes == s.availableNodes + nodes && r.limits.time.Get(us) == s.availableNodes + nodes)
      && (s.availableNodes + nodes == 0 ==>
            r.session.availableNodes == options.nodestime * l.time.Get(us))
  {
  }

  // ----- A game: init called once per move -----

  /** The arguments of one call of init. */
  datatype Move = Move(limits: Limits, us: Color, ply: int, options: Options)

  /** The manager's fields after init has been called for each move in turn. */
  function Replay(s: Session, moves: seq<Move>, formula: ScaleFormula): Session
    decreases |moves|
  {
    if moves == [] then s
    else
      var m := moves[0];
      Replay(InitSpec(s, m.limits, m.us, m.ply, m.options, formula).session, moves[1..], formula)
  }

  /** A quota, once set, survives any number of moves. */
  lemma {:induction false} QuotaStable(s: Session, moves: seq<Move>, formula: ScaleFormula)
    requires s.availableNodes != 0
    ensures Replay(s, moves, formula).availableNodes == s.availableNodes
    decreases |moves|
  {
    if moves != [] {
      var m := moves[0];
      QuotaKeptWhenSet(s, m.limits, m.us, m.ply, m.options, formula);
      QuotaStable(InitSpec(s, m.limits, m.us, m.ply, m.options, formula).session, moves[1..], formula);
    }
  }

  /** Nodes-as-time mode, once on, stays on for the rest of the game. */
  lemma {:induction false} NodesModeSticky(s: Session, moves: seq<Move>, formula: ScaleFormula)
    requires s.useNodesTime
    ensures Replay(s, moves, formula).useNodesTime
    decreases |moves|
  {
    if moves != [] {
      var m := moves[0];
      NodesModeSticky(InitSpec(s, m.limits, m.us, m.ply, m.options, formula).session, moves[1..], formula);
    }
  }

  /**
   * The quota is derived from the clock of the first move and from nothing
   * later in the game: later clocks do not change it.
   */
  lemma QuotaDerivedOncePerGame(s: Session, moves: seq<Move>, formula: ScaleFormula)
    requires s.availableNodes == 0 && moves != []
    requires moves[0].options.nodestime != 0 && moves[0].limits.time.Get(moves[0].us) != 0
    ensures Replay(s, moves, formula).availableNodes == moves[0].options.nodestime * moves[0].limits.time.Get(moves[0].us)
    ensures Replay(s, moves, formula).useNodesTime
  {
    var m := moves[0];
    var s1 := InitSpec(s, m.limits, m.us, m.ply, m.options, formula).session;
    QuotaDerivedWhenEmpty(s, m.limits, m.us, m.ply, m.options, formula);
    NodesTimeRewritesLimits(s, m.limits, m.us, m.ply, m.options, formula);
    QuotaStable(s1, moves[1..], formula);
    NodesModeSticky(s1, moves[1..], formula);
  }

  /** A product of two non-zero integers is not zero (a nodes quota from a non-zero clock is not empty). */
  lemma NonZeroProduct(a: int, b: int)
    requires a != 0 && b != 0
    ensures a * b != 0
  {
    // Not needed on every solver seed; kept so the nonlinear step does not depend on one.
    if a > 0 && b > 0 {
      assert a * b >= b;
    }
  }

  // ----- The class, driven as the engine drives it -----

  /**
   * A game in nodes-as-time mode at 1000 nodes per millisecond: the first
   * move turns a 10000 ms clock into a quota of 10,000,000 nodes, a later
   * move with another clock keeps it, and clear lets the next game derive
   * its own quota.
   */
  method NodesTimeGame(formula: ScaleFormula) returns (quotas: seq<int>)
    ensures quotas == [10_000_000, 10_000_000, 20_000_000]
  {
    var tm := new TimeManagement();
    var options := Options(0, 1000, false);

    var first := new LimitsType(Limits(PerColor(10_000, 10_000), PerColor(0, 0), 0, 0, 0));
    tm.Init(first, White, 0, options, formula);
    assert first.time.Get(White) == 10_000_000;
    var q1 := tm.availableNodes;

    var later := new LimitsType(Limits(PerColor(4_000, 9_000), PerColor(0, 0), 0, 0, 500));
    tm.Init(later, White, 2, options, formula);
    assert tm.startTime == 500 && later.time.Get(White) == 10_000_000;
    var q2 := tm.availableNodes;

    tm.Clear();
    var next := new LimitsType(Limits(PerColor(20_000, 20_000), PerColor(0, 0), 0, 0, 0));
    tm.Init(next, White, 0, options, formula);
    quotas := [q1, q2, tm.availableNodes];
  }
}
