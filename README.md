# Time management of the engine, modelled in Dafny

This project models `TimeManagement`, the per-move time manager of the engine
(`src/timeman.cpp`). Before each search, `init` turns the clock of the side to move into
two budgets. The search is steered toward the optimum and must never pass the maximum.

In "nodes as time" mode the clock is turned into a node quota once per game. The
caller's limits are then rewritten in nodes for every move. `elapsed` reports nodes
searched in this mode, and wall-clock time since the start stamp otherwise.

Files:

- `timeman.dfy`, module `TimeMan`, holds the model:
  - the value types `Color`, `PerColor` (a value for each side, such as `limits.time[]`), `Limits`, `Options`, `Session` (the manager's fields as a value), `Regime`, `Scales`, `ScaleInputs`, `ScaleFormula`, `InitResult` (the new fields and the rewritten limits);
  - the pure steps of `init`: `Horizon`, `TimeLeft`, `ConvertToNodes`, `Converted`, `Budgets`, `Finalise`, `MaximumTime`, `PonderBump`, `ScaleTime`, `Trunc`, `CDiv`, `Ceiling`, `Min`, `RegimeOf`, with `InitSpec` as the whole of `init`;
  - `Cleared` and `Advanced`, for `clear` and `advance_nodes_time`;
  - the classes `LimitsType`, the caller's limits that `init` rewrites in place, and `TimeManagement`, whose fields are `startTime`, `optimumTime`, `maximumTime`, `availableNodes` and `useNodesTime`.
- `TimeManagement.Init`, `Clear` and `AdvanceNodesTime` update those fields step by step, as the C++ does. Each is proved to leave exactly the state that `InitSpec`, `Cleared` or `Advanced` gives. `Optimum`, `Maximum` and `Elapsed` are readers.
- `timeman_properties.dfy`, module `TimeManProperties`, holds what is proved about one call of `init`, about `clear` and `advance_nodes_time`, and about a whole game (`Replay`: `init` once per move). `NodesTimeGame` drives the class through two moves of one game, then `clear` and the first move of the next.

Inputs:

- The options "Move Overhead", "nodestime" and "Ponder" are the `Options` parameter.
- The clock reading `now()` is a parameter of `Elapsed`.
- The floating-point scale factors `optScale` and `maxScale` come from a `ScaleFormula`. It holds one abstract total function per regime: `suddenDeath` (`movestogo == 0`) and `movesInTime`. Both take the ply, `mtg`, the converted time and increment, and `timeLeft`. The regime split stays visible this way: `init` calls exactly one of them, chosen by `movestogo`.

Numbers:

- `TimePoint` is an unbounded `int`.
- Double arithmetic is computed in exact reals.
- A `double` becomes a `TimePoint` by `Trunc`, which truncates toward zero.
- C++ integer division, which also truncates toward zero, is `CDiv`.

Two facts about the code that the model keeps:

- Nothing clamps `maximumTime` at 0 (src/timeman.cpp:121-122). `MaximumCanBeNegative` shows a maximum of -15 with a 5 ms clock and a 10 ms move overhead.
- `init` stamps the start time on every call (src/timeman.cpp:58), also when it returns early at src/timeman.cpp:59-60.

## Model

| member | source | states |
|---|---|---|
| TimeMan.TimeManagement.Init | src/timeman.cpp:52-126 | the new fields and the rewritten limits are exactly what `InitSpec` gives for the old fields and the old limits; `startTime` is the limits' start time |
| TimeMan.TimeManagement.Clear | src/timeman.cpp:39-41 | only `availableNodes` changes, and it becomes 0 |
| TimeMan.TimeManagement.AdvanceNodesTime | src/timeman.cpp:43-46 | requires nodes-as-time mode (the source asserts it); adds `nodes` to `availableNodes` and changes nothing else |
| TimeMan.TimeManagement.Elapsed | src/timeman.cpp:35-37 | in nodes-as-time mode the result is the node count; otherwise start time plus result is the clock reading |
| TimeMan.Horizon | src/timeman.cpp:87 | `mtg` is 60 when `movestogo` is 0 or at least 60, and `movestogo` otherwise; so `mtg <= 60` always and `1 <= mtg` when `movestogo >= 0` |
| TimeMan.TimeLeft | src/timeman.cpp:89-91 | `timeLeft >= 1`; it is at least `time + inc*(mtg-1) - moveOverhead*(2+mtg)` and equals either that or 1 |
| TimeMan.ScaleTimeIsTrunc | src/timeman.cpp:120 | `TimePoint(optScale * timeLeft)` is the truncation toward zero of the product, whatever the signs of the factors |
| TimeMan.TruncBounds | src/timeman.cpp:120-122 | the double-to-TimePoint conversion moves toward zero by less than one, for either sign |
| TimeMan.MaximumTimeBounds | src/timeman.cpp:121-122 | maximum + 10 is at most the truncated ceiling and at most the truncated `maxScale*optimum`, and equals one of them; when the ceiling is not negative, maximum + 10 is at most the ceiling |
| TimeMan.PonderBumpBounds | src/timeman.cpp:124-125 | for a non-negative optimum the bump adds a quarter rounded down (`5o-3 <= 4r <= 5o`), toward zero for a negative one, and exactly 1.25 times a multiple of 4 |
| TimeManProperties.InitStampsStartTime | src/timeman.cpp:58 | `init` always sets the start time from the limits, also when it returns early |
| TimeManProperties.InitWithoutClock | src/timeman.cpp:58-60 | with no time for the side to move, only `startTime` changes; the optimum, maximum, quota, mode flag and limits are untouched |
| TimeManProperties.QuotaDerivedWhenEmpty | src/timeman.cpp:73-78 | with nodestime set and no quota yet, the quota becomes `nodestime * time[us]`, which is not 0 |
| TimeManProperties.QuotaKeptWhenSet | src/timeman.cpp:77-78 | a quota that is not 0 is kept, whatever the clock and the options |
| TimeManProperties.NodesTimeRewritesLimits | src/timeman.cpp:73-84 | in nodes-as-time mode the flag is set, `time[us]` becomes the quota, `inc[us]` is multiplied by nodestime and `npmsec` is recorded; the other side, `movestogo` and the limits' start time are unchanged |
| TimeManProperties.ClockModeKeepsLimits | src/timeman.cpp:73 | with nodestime 0 the limits, the mode flag and the quota are unchanged |
| TimeManProperties.BudgetsFromConvertedClock | src/timeman.cpp:86-125 | the optimum (bumped when pondering) and the maximum are computed from the converted `time[us]` and `inc[us]`, the horizon and `timeLeft`, with the scales of the regime `movestogo` selects |
| TimeManProperties.MaximumBelowCeiling | src/timeman.cpp:119-122 | after `init`, maximum + 10 is at most the truncated `0.81*time[us] - moveOverhead` of the converted clock, and at most that ceiling when it is not negative |
| TimeManProperties.MaximumCanBeNegative | src/timeman.cpp:121-122 | a 5 ms clock with a 10 ms move overhead gives a maximum of -15: nothing clamps it at 0 |
| TimeManProperties.PonderOnlyBumpsOptimum | src/timeman.cpp:124-125 | pondering changes only the optimum, from `base` to `base + base/4` (C++ division); the maximum and the limits are the same as without it |
| TimeManProperties.SuddenDeathIgnoresMovesFormula | src/timeman.cpp:96-110 | with `movestogo == 0` the result does not depend on the moves-to-go formula |
| TimeManProperties.MovesInTimeIgnoresSuddenDeathFormula | src/timeman.cpp:113-117 | with `movestogo != 0` the result does not depend on the sudden-death formula |
| TimeManProperties.ClearRederivesQuota | src/timeman.cpp:39-41 | after `clear`, the next nodes-as-time `init` derives the quota from the new clock |
| TimeManProperties.AdvanceCarriesOver | src/timeman.cpp:43-46 | nodes added by `advance_nodes_time` are the next move's `time[us]` and quota; if they bring the quota to 0, it is derived from the clock again |
| TimeManProperties.QuotaStable | src/timeman.cpp:77-78 | a quota that is not 0 survives any sequence of `init` calls |
| TimeManProperties.NodesModeSticky | src/timeman.cpp:73-75 | once nodes-as-time mode is on, no later `init` turns it off |
| TimeManProperties.QuotaDerivedOncePerGame | src/timeman.cpp:73-84 | starting with no quota, after any game whose first move is in nodes-as-time mode, the quota is `nodestime * time[us]` of the first move, and the mode is on |
| TimeManProperties.NodesTimeGame | src/timeman.cpp:39-84 | on the class: 1000 nodes/ms and a 10000 ms clock give 10,000,000 nodes; a later move with another clock keeps it; after `clear` a 20000 ms clock gives 20,000,000 |

## Left out

- The closed-form scale formulas (src/timeman.cpp:99-116) are floating-point numerics and are not modelled. This covers `optExtra`, `optConstant`, `maxConstant`, `pow(ply + 3, 0.45)`, the `log10` terms and the fixed constants of the moves-to-go regime. The model takes each regime's `optScale`/`maxScale` as an abstract function instead (`ScaleFormula`).
- Double rounding is not modelled. Products such as `optScale * timeLeft` and `0.81 * time` are computed in exact reals (0.81 is exactly 81/100), and only the final truncation toward zero is explicit.
- 64-bit overflow is not modelled. `TimePoint` and `availableNodes` are unbounded integers, so `npmsec * time[us]`, `inc[us] * npmsec` and `size_t` to `TimePoint` never wrap.
- The tunable globals `timeman_cpp_*` and the `TUNE(...)` registration (src/timeman.cpp:30-31) are left out. They register with an external tuner. Only the default of `timeman_cpp_119_0` appears, as `MaxTimeFraction = 0.81`; the horizon 60 (`MaxHorizon`, src/timeman.cpp:87) and the 10 ms margin (`SafetyMs`, src/timeman.cpp:122) are the code's own literals. The defaults of the scale-formula tunables do not appear, because `ScaleFormula` is abstract.
- `OptionsMap` lookups are not modelled: the option values are plain inputs. `now()` is not modelled: it is a parameter of `Elapsed`.
- The search threads that read `optimum()` and `maximum()` are left out: that is concurrency outside this file.
- `TimeManagement.Optimum` and `TimeManagement.Maximum` are plain readers of `optimumTime` and `maximumTime` and carry no contract. What those fields hold after `init` is stated by the lemmas above.
- `timeman.h` is not part of this model. The constructor's initial values (no quota, clock mode, zero times) are assumed.
- Only the fields of `Search::LimitsType` that the time manager touches are modelled. These are `time`, `inc`, `movestogo`, `npmsec` and `startTime`.
