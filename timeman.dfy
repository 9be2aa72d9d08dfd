/*
 * The per-move time manager of the engine (class TimeManagement in
 * src/timeman.cpp): the session state it keeps, the "nodes as time"
 * conversion, the horizon and safety clamps, the regime choice and the
 * final optimum / maximum budgets.
 *
 * TimePoint is modelled as an unbounded int: 64-bit overflow is not modelled.
 * The floating-point scale formulas are inputs (ScaleFormula), one per regime;
 * double arithmetic is modelled by exact reals and the double -> TimePoint
 * conversion by Trunc (truncation toward zero).
 */
module TimeMan {

  /** Milliseconds, or nodes in "nodes as time" mode. */
  type TimePoint = int

  datatype Color = White | Black {
    function Opposite(): Color {
      match this
      case White => Black
      case Black => White
    }
  }

  /** A value kept for each side, such as `limits.time[]` and `limits.inc[]`. */
  datatype PerColor = PerColor(white: TimePoint, black: TimePoint) {
    function Get(c: Color): TimePoint {
      match c
      case White => white
      case Black => black
    }

    /** This value with the entry of side `c` replaced by `v`. */
    function With(c: Color, v: TimePoint): (r: PerColor)
      ensures r.Get(c) == v
      ensures r.Get(c.Opposite()) == Get(c.Opposite())
    {
      match c
      case White => this.(white := v)
      case Black => this.(black := v)
    }
  }

  /** The part of `Search::LimitsType` that the time manager reads or rewrites. */
  datatype Limits = Limits(
    time: PerColor,
    inc: PerColor,
    movestogo: int,
    npmsec: TimePoint,
    startTime: TimePoint)

  /** The three engine options the time manager reads. */
  datatype Options = Options(
    moveOverhead: TimePoint, // "Move Overhead"
    nodestime: TimePoint,    // "nodestime": nodes per millisecond, 0 disables the mode
    ponder: bool)            // "Ponder"

  /** The fields of a TimeManagement object, as a value. */
  datatype Session = Session(
    startTime: TimePoint,
    optimumTime: TimePoint,
    maximumTime: TimePoint,
    availableNodes: int,
    useNodesTime: bool)

  /** The two time controls the manager distinguishes. */
  datatype Regime =
    | SuddenDeath   // x basetime (+ z increment): movestogo == 0
    | MovesInTime   // x moves in y seconds (+ z increment)

  /** What the scale formulas of either regime may depend on. */
  datatype ScaleInputs = ScaleInputs(
    ply: int,
    mtg: int,
    time: TimePoint,
    inc: TimePoint,
    timeLeft: TimePoint)

  /** optScale: the fraction of timeLeft to use; maxScale: multiplier applied to the optimum. */
  datatype Scales = Scales(optScale: real, maxScale: real)

  /** The closed-form scale formulas, one per regime, left abstract. */
  datatype ScaleFormula = ScaleFormula(
    suddenDeath: ScaleInputs -> Scales,
    movesInTime: ScaleInputs -> Scales)
  {
    function For(regime: Regime, x: ScaleInputs): Scales {
      match regime
      case SuddenDeath => suddenDeath(x)
      case MovesInTime => movesInTime(x)
    }
  }

  datatype InitResult = InitResult(session: Session, limits: Limits)

  /** Longest horizon over which the remaining time is spread. */
  const MaxHorizon: int := 60
  /** Hard ceiling on the maximum, as a fraction of the remaining time. */
  const MaxTimeFraction: real := 0.81
  /** Milliseconds subtracted from the maximum as a latency buffer. */
  const SafetyMs: TimePoint := 10

  function Min(x: real, y: real): real {
    if x <= y then x else y
  }

  /** Conversion of a double to TimePoint: truncation toward zero. */
  function Trunc(x: real): int {
    if 0.0 <= x then x.Floor else -((-x).Floor)
  }

  /**
   * `TimePoint(scale * t)`: truncation of a product.  The sign of the product
   * is read off its factors, so that no comparison on the product is needed.
   */
  function ScaleTime(scale: real, t: TimePoint): TimePoint {
    var x := scale * t as real;
    if (0.0 <= scale) == (0 <= t) then x.Floor else -((-x).Floor)
  }

  /** ScaleTime is the truncation of the product. */
  lemma ScaleTimeIsTrunc(scale: real, t: TimePoint)
    ensures ScaleTime(scale, t) == Trunc(scale * t as real)
  {
    // The sign hints are not needed on every solver seed; they keep the nonlinear sign step stable.
    var x := scale * t as real;
    if 0.0 < scale && t < 0 {
      assert x < 0.0;
    } else if scale < 0.0 && 0 < t {
      assert x < 0.0;
    } else {
      assert 0.0 <= x;
    }
  }

  /** Truncation moves toward zero by less than one. */
  lemma TruncBounds(x: real)
    ensures 0.0 <= x ==> 0 <= Trunc(x) && Trunc(x) as real <= x < Trunc(x) as real + 1.0
    ensures x < 0.0 ==> Trunc(x) <= 0 && Trunc(x) as real - 1.0 < x <= Trunc(x) as real
  {
  }

  /** C++ integer division, which truncates toward zero. */
  function CDiv(a: int, b: int): int
    requires 0 < b
  {
    if 0 <= a then a / b else -((-a) / b)
  }

  function RegimeOf(movestogo: int): Regime {
    if movestogo == 0 then SuddenDeath else MovesInTime
  }

  /** `mtg`: the number of moves the remaining time is spread over. */
  function Horizon(movestogo: int): (mtg: int)
    ensures mtg <= MaxHorizon
    ensures movestogo == 0 || MaxHorizon <= movestogo ==> mtg == MaxHorizon
    ensures movestogo != 0 && movestogo < MaxHorizon ==> mtg == movestogo
    ensures 0 <= movestogo ==> 1 <= mtg
  {
    if movestogo != 0 then (if movestogo < MaxHorizon then movestogo else MaxHorizon) else MaxHorizon
  }

  /** `timeLeft`: the remaining time plus the coming increments, less the overheads; never below 1. */
  function TimeLeft(time: TimePoint, inc: TimePoint, mtg: int, moveOverhead: TimePoint): (t: TimePoint)
    ensures 1 <= t
    ensures time + inc * (mtg - 1) - moveOverhead * (2 + mtg) <= t
    ensures t == 1 || t == time + inc * (mtg - 1) - moveOverhead * (2 + mtg)
  {
    var raw := time + inc * (mtg - 1) - moveOverhead * (2 + mtg);
    if raw < 1 then 1 else raw
  }

  /** The hard ceiling on the maximum: 81% of the remaining time, less the move overhead. */
  function Ceiling(time: TimePoint, moveOverhead: TimePoint): real {
    MaxTimeFraction * time as real - moveOverhead as real
  }

  /** The maximum for an optimum `opt`: the smaller of the ceiling and maxScale * opt, truncated, less 10. */
  function MaximumTime(time: TimePoint, moveOverhead: TimePoint, maxScale: real, opt: TimePoint): TimePoint {
    Trunc(Min(Ceiling(time, moveOverhead), maxScale * opt as real)) - SafetyMs
  }

  /** The maximum is the truncated smaller bound, less 10; below 10 under the ceiling when that is not negative. */
  lemma MaximumTimeBounds(time: TimePoint, moveOverhead: TimePoint, maxScale: real, opt: TimePoint)
    ensures MaximumTime(time, moveOverhead, maxScale, opt) + SafetyMs <= Trunc(Ceiling(time, moveOverhead))
    ensures MaximumTime(time, moveOverhead, maxScale, opt) + SafetyMs <= Trunc(maxScale * opt as real)
    ensures MaximumTime(time, moveOverhead, maxScale, opt) + SafetyMs == Trunc(Ceiling(time, moveOverhead))
         || MaximumTime(time, moveOverhead, maxScale, opt) + SafetyMs == Trunc(maxScale * opt as real)
    ensures 0.0 <= Ceiling(time, moveOverhead) ==>
              (MaximumTime(time, moveOverhead, maxScale, opt) + SafetyMs) as real <= Ceiling(time, moveOverhead)
  {
    var ceiling, scaled := Ceiling(time, moveOverhead), maxScale * opt as real;
    TruncMonotone(Min(ceiling, scaled), ceiling);
    TruncMonotone(Min(ceiling, scaled), scaled);
    TruncBounds(ceiling);
  }

  /** Truncation toward zero preserves order. */
  lemma TruncMonotone(x: real, y: real)
    requires x <= y
    ensures Trunc(x) <= Trunc(y)
  {
    // Kept for solver stability: Dafny often finds this unaided, but not reliably through Floor.
    TruncBounds(x);
    TruncBounds(y);
  }

  /** `optimumTime += optimumTime / 4`, with C++ division. */
  function PonderBump(opt: TimePoint): TimePoint {
    opt + CDiv(opt, 4)
  }

  /** The ponder bump adds a quarter, rounded toward zero: exactly 1.25 times a multiple of 4. */
  lemma PonderBumpBounds(opt: TimePoint)
    ensures 0 <= opt ==> opt <= PonderBump(opt) && 5 * opt - 3 <= 4 * PonderBump(opt) <= 5 * opt
    ensures opt < 0 ==> PonderBump(opt) <= opt && 5 * opt <= 4 * PonderBump(opt) <= 5 * opt + 3
    ensures opt % 4 == 0 ==> 4 * PonderBump(opt) == 5 * opt
  {
  }

  /**
   * "Nodes as time": converts the clock of side `us` into nodes.  The quota
   * is derived from the clock only while availableNodes is 0.
   */
  function ConvertToNodes(s: Session, l: Limits, us: Color, npmsec: TimePoint): InitResult {
    var nodes := if s.availableNodes == 0 then npmsec * l.time.Get(us) else s.availableNodes;
    InitResult(
      s.(useNodesTime := true, availableNodes := nodes),
      l.(time := l.time.With(us, nodes), inc := l.inc.With(us, l.inc.Get(us) * npmsec), npmsec := npmsec))
  }

  /** The optimum (bumped by a quarter when pondering) and the maximum for the chosen scales. */
  function Finalise(s: Session, scales: Scales, time: TimePoint, moveOverhead: TimePoint, timeLeft: TimePoint, ponder: bool): Session {
    var opt := ScaleTime(scales.optScale, timeLeft);
    s.(optimumTime := if ponder then PonderBump(opt) else opt,
       maximumTime := MaximumTime(time, moveOverhead, scales.maxScale, opt))
  }

  /** The budgets computed from the (possibly converted) limits. */
  function Budgets(s: Session, l: Limits, us: Color, ply: int, options: Options, formula: ScaleFormula): Session {
    var time := l.time.Get(us);
    var inc := l.inc.Get(us);
    var mtg := Horizon(l.movestogo);
    var timeLeft := TimeLeft(time, inc, mtg, options.moveOverhead);
    var scales := formula.For(RegimeOf(l.movestogo), ScaleInputs(ply, mtg, time, inc, timeLeft));
    Finalise(s, scales, time, options.moveOverhead, timeLeft, options.ponder)
  }

  /** The limits and fields after the nodes-as-time step of init (nodestime 0: unchanged). */
  function Converted(s: Session, l: Limits, us: Color, nodestime: TimePoint): InitResult {
    if nodestime != 0 then ConvertToNodes(s, l, us, nodestime) else InitResult(s, l)
  }

  /** What `TimeManagement::init` does to the manager's fields and to the caller's limits. */
  function InitSpec(s: Session, l: Limits, us: Color, ply: int, options: Options, formula: ScaleFormula): InitResult {
    var stamped := s.(startTime := l.startTime);
    if l.time.Get(us) == 0 then
      InitResult(stamped, l)
    else
      var c := Converted(stamped, l, us, options.nodestime);
      InitResult(Budgets(c.session, c.limits, us, ply, options, formula), c.limits)
  }

  /** What `TimeManagement::clear` does: a new game derives its node quota afresh. */
  function Cleared(s: Session): Session {
    s.(availableNodes := 0)
  }

  /** What `TimeManagement::advance_nodes_time` does. */
  function Advanced(s: Session, nodes: int): Session
    requires s.useNodesTime
  {
    s.(availableNodes := s.availableNodes + nodes)
  }

  /** The caller's `Search::LimitsType`, which `init` rewrites in nodes-as-time mode. */
  class LimitsType {
    var time: PerColor
    var inc: PerColor
    var movestogo: int
    var npmsec: TimePoint
    var startTime: TimePoint

    constructor (l: Limits)
      ensures Snapshot() == l
    {
      time, inc, movestogo, npmsec, startTime := l.time, l.inc, l.movestogo, l.npmsec, l.startTime;
    }

    function Snapshot(): Limits
      reads this
    {
      Limits(time, inc, movestogo, npmsec, startTime)
    }
  }

  class TimeManagement {
    var startTime: TimePoint
    var optimumTime: TimePoint
    var maximumTime: TimePoint
    var availableNodes: int
    var useNodesTime: bool

    /** A fresh manager: no node quota yet and not in nodes-as-time mode. */
    constructor ()
      ensures State() == Session(0, 0, 0, 0, false)
    {
      startTime, optimumTime, maximumTime := 0, 0, 0;
      availableNodes, useNodesTime := 0, false;
    }

    function State(): Session
      reads this
    {
      Session(startTime, optimumTime, maximumTime, availableNodes, useNodesTime)
    }

    function Optimum(): TimePoint
      reads this
    {
      optimumTime
    }

    function Maximum(): TimePoint
      reads this
    {
      maximumTime
    }

    /** Nodes searched in nodes-as-time mode, wall-clock time since the start otherwise. */
    function Elapsed(nodes: nat, now: TimePoint): (r: TimePoint)
      reads this
      ensures useNodesTime ==> r == nodes
      ensures !useNodesTime ==> startTime + r == now
    {
      if useNodesTime then nodes else now - startTime
    }

    method Clear()
      modifies this
      ensures State() == Cleared(old(State()))
    {
      availableNodes := 0;
    }

    method AdvanceNodesTime(nodes: int)
      requires useNodesTime
      modifies this
      ensures State() == Advanced(old(State()), nodes)
    {
      availableNodes := availableNodes + nodes;
    }

    /**
     * Computes the optimum and maximum budgets for the current move; in
     * nodes-as-time mode also rewrites the caller's limits into nodes.
     */
    method Init(limits: LimitsType, us: Color, ply: int, options: Options, formula: ScaleFormula)
      modifies this, limits
      ensures startTime == old(limits.startTime)
      ensures State() == InitSpec(old(State()), old(limits.Snapshot()), us, ply, options, formula).session
      ensures limits.Snapshot() == InitSpec(old(State()), old(limits.Snapshot()), us, ply, options, formula).limits
    {
      startTime := limits.startTime;
      if limits.time.Get(us) == 0 {
        return;
      }

      var moveOverhead := options.moveOverhead;
      var npmsec := options.nodestime;

      if npmsec != 0 {
        useNodesTime := true;
        if availableNodes == 0 {
          availableNodes := npmsec * limits.time.Get(us);
        }
        limits.time := limits.time.With(us, availableNodes);
        limits.inc := limits.inc.With(us, limits.inc.Get(us) * npmsec);
        limits.npmsec := npmsec;
      }

      var time := limits.time.Get(us);
      var inc := limits.inc.Get(us);
      var mtg := Horizon(limits.movestogo);
      var timeLeft := TimeLeft(time, inc, mtg, moveOverhead);

      var scales := formula.For(RegimeOf(limits.movestogo), ScaleInputs(ply, mtg, time, inc, timeLeft));

      optimumTime := ScaleTime(scales.optScale, timeLeft);
      maximumTime := MaximumTime(time, moveOverhead, scales.maxScale, optimumTime);

      if options.ponder {
        optimumTime := optimumTime + CDiv(optimumTime, 4);
      }
    }
  }
}
