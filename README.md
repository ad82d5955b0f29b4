# three-body-tui: a verified model of the engine, the settings panel, the logger and the N-body update

three-body-tui is a terminal application. It runs an N-body gravity scenario:
- three bodies, each drawn as a sun glyph;
- a trail of dots that they leave behind;
- a settings panel (speed, gravitational constant G, drag);
- a rolling debug log.

Each pass of the main loop does three things:
1. it carries out a pending reset;
2. it updates the simulation unless paused;
3. it handles at most one terminal event.

This project models in Dafny the discrete core of that program.

The modules are:
- `Logging`: the `Logger` rolling log. It is a class with the visible buffer `logs`. A ghost `history` holds every line ever logged. The invariant `Valid` ties `logs` to the last 100 entries of `history`.
- `Settings`: the three settings and their increment/decrement. Speed is a 64-bit integer with two's-complement wrap. The `SettingsBlock` panel holds one shared `array<Setting>` and a selected index.
- `Bodies`: bodies, their trail markers, spawning from a random draw, and one integration step.
- `Pairs`: the pairwise force pass. It visits the pairs (i, j) with i < j in row order. The force law is a parameter.
- `Ransac`: the centroid vote and the recentring passes.
- `NBodySim`: the `NBody` class, which holds the bodies, the trail, the logger and the settings array. It covers initialisation, reset and update.
- `Engine`: the engine flags, key dispatch, one tick, and the main loop over a finite sequence of tick inputs.
- `Decimal`: the decimal rendering of integers, used for the Speed value and the log lines.
- `Keys`: the terminal events the engine tells apart.

The settings are shared by reference counting in the program. Here they are one Dafny array that the panel and the simulation both hold. A change made through the panel is therefore exactly the value the next update reads.

The logger is one object shared by the engine and the simulation.

The update recentres the trail as the program does: both trail passes subtract a tenth of the centroid's x, and no pass touches y (see Findings).

Reals stand for `f64` values. The pairwise force is a function parameter `pull(G, a, b)`, because it needs a square root. The RANSAC centroid divides the winner's inlier sum by the number of all bodies, as the code does, not by the number of inliers.

## Model

| member | source | states |
|---|---|---|
| Logging.Logger.constructor | src/simulations.rs:102-106 | a new logger is empty and has logged nothing |
| Logging.Logger.Len | src/simulations.rs:107-109 | the length is min(lines logged, 100), so it never exceeds 100 |
| Logging.Logger.Log | src/simulations.rs:110-115 | the line is recorded. Below capacity it is only appended and nothing else changes. At capacity the oldest line is dropped. The buffer stays the last 100 lines logged, in order |
| Logging.LastN | src/simulations.rs:110-115 | the buffer contents: the last min(n, length) entries, in their original order |
| Logging.LastNSnoc | src/simulations.rs:110-114 | appending to a window that is not full extends it; appending to a full window evicts its oldest entry first |
| Logging.Logger.GetLogs | src/simulations.rs:117-124 | returns the last min(n, len) entries, each followed by a newline, and never indexes outside the buffer |
| Logging.LinesSnoc | src/simulations.rs:119-122 | one more loop iteration appends the next entry and a newline |
| Logging.SplitLinesRoundTrip | src/simulations.rs:117-124 | the output of `get_logs` splits back into exactly the entries it joined, when no entry holds a newline |
| Settings.Setting.Increment | src/simulations/nbody.rs:268-329 | a setting keeps its kind; Speed steps up by one modulo 2^64 in the i64 range |
| Settings.Setting.Decrement | src/simulations/nbody.rs:268-329 | a setting keeps its kind; Speed steps down by one modulo 2^64 in the i64 range |
| Settings.Wrap | src/simulations/nbody.rs:296-301 | the two's-complement result is congruent to the exact one modulo 2^64 |
| Settings.SpeedStepsInverse | src/simulations/nbody.rs:296-301 | on Speed, increment then decrement and decrement then increment both restore the setting, including at the i64 limits |
| Settings.SpeedRoundTrip | src/simulations/nbody.rs:296-301 | k increments followed by k decrements restore the Speed setting |
| Settings.IncrementsKeepKind | src/simulations/nbody.rs:299-301 | repeated increments keep a setting's kind: a Speed, Gravity or Drag setting stays one |
| Settings.Setting.Text | src/simulations/nbody.rs:281-325 | each setting's label is a name followed by a colon ("Force (G):", "Speed:", "Drag:") |
| Settings.TextNamesKind | src/simulations/nbody.rs:281-325 | two settings have the same label exactly when they are of the same kind |
| Settings.SpeedValue | src/simulations/nbody.rs:305-307 | the displayed Speed value is in the canonical form `{}` prints (optional minus, at least one digit, no leading zero, no "-0") and parses back to the number |
| Decimal.IntToString | src/simulations/nbody.rs:305-307 | an integer prints in canonical form, with a minus sign exactly when it is negative |
| Decimal.NatToString | src/simulations/nbody.rs:305-307 | a natural prints as a non-empty digit string with no leading zero |
| Decimal.NatRoundTrip | src/simulations/nbody.rs:305-307 | parsing the decimal form of a natural gives it back |
| Decimal.IntRoundTrip | src/simulations/nbody.rs:305-307 | the decimal form of any integer, sign included, is well-formed and parses back to it |
| Settings.NavigateStaysInRange | src/simulations.rs:59-69 | any series of up and down moves keeps a selection that starts on an entry on an entry |
| Settings.SettingsBlock.constructor | src/simulations/nbody.rs:167-170 | the panel holds the given settings array with the first entry selected |
| Settings.SettingsBlock.Up | src/simulations.rs:59-63 | the selection moves one up, stays at 0 at the top, and no setting changes |
| Settings.SettingsBlock.Down | src/simulations.rs:65-69 | the selection moves one down only while not on the last entry, and no setting changes |
| Settings.SettingsBlock.Left | src/simulations.rs:71-73 | only the selected setting is decremented; the other settings and the selection are unchanged |
| Settings.SettingsBlock.Right | src/simulations.rs:74-76 | only the selected setting is incremented; the other settings and the selection are unchanged |
| Bodies.RandBody | src/simulations/nbody.rs:60-70 | a new body has unit mass, a position in [-50, 50] and a velocity in [-0.1, 0.1] per axis, and the sun glyph in palette colour id mod 8 |
| Bodies.GetTrail | src/simulations/nbody.rs:72-81 | a marker has mass 0 and zero velocity; it keeps the body's position and colour and uses the dot glyph |
| Bodies.Step | src/simulations/nbody.rs:87-98 | a step keeps the body's mass and icon |
| Bodies.Clamp | src/simulations/nbody.rs:89 | the clamped value lies in the range and equals the input when the input already does |
| Bodies.StepAccelerationBounded | src/simulations/nbody.rs:88-96 | however large the force, a drag-free step changes each velocity component by at most 0.1 times the time step |
| Bodies.InertialStep | src/simulations/nbody.rs:87-98 | with no force and drag 1 the velocity is kept and the position advances by velocity times time |
| Pairs.AllPairsExactlyOnce | src/simulations/nbody.rs:192-193 | the nested loops visit each pair (i, j) with i < j < n exactly once, nothing else, n(n-1)/2 pairs in all |
| Pairs.RowAccumulateVisits | src/simulations/nbody.rs:193-208 | the inner loop's row of force updates is the pair-by-pair accumulation over that row |
| Pairs.ForcesBalanced | src/simulations/nbody.rs:199-206 | each pair adds opposite forces to its two bodies, so the forces sum to zero whatever the force law |
| NBodySim.Spawned | src/simulations/nbody.rs:161 | initialisation and reset create three bodies, ids 0 to 2, of unit mass and palette colours 0 to 2 |
| NBodySim.UpdateLogLength | src/simulations/nbody.rs:192-219 | one update logs n(n-1)/2 + n lines |
| NBodySim.Advance | src/simulations/nbody.rs:185-231 | the specification of one update: markers, steps under the pair forces, bodies recentred, trail moved as the program does. It keeps the number of bodies and grows the trail by one marker per body |
| NBodySim.AdvanceKeepsBodies | src/simulations/nbody.rs:185-231 | an update keeps the number of bodies and every body's mass and icon, and grows the trail by one marker per body |
| NBodySim.MarkersRecentred | src/simulations/nbody.rs:186-189 | after an update the old trail comes first. Then come the new markers, one per pre-step body in body order, each a massless, motionless dot of its body's colour. Every marker, old or new, ends 0.2 times the centroid's x to the left and at its y unchanged, as lines 229-230 do |
| NBodySim.PassComplete | src/simulations/nbody.rs:192 | the outer loop stops at n - 1 because the last row is empty: the rows below n - 1 hold every pair, so the forces are the net forces and the log has every pair line |
| NBodySim.NBody.constructor | src/simulations/nbody.rs:159-171 | the simulation shares the logger and the panel's settings array; it has three spawned bodies, an empty trail and id counter 3 |
| NBodySim.NBody.Reset | src/simulations/nbody.rs:175-179 | a reset leaves three fresh bodies, an empty trail and id counter 3 |
| NBodySim.NBody.GravityValue | src/simulations/nbody.rs:197 | G is the value the shared Gravity setting holds |
| NBodySim.NBody.TimeValue | src/simulations/nbody.rs:215 | the time step is the shared Speed integer, converted to a real; it lies in the i64 range |
| NBodySim.NBody.DragValue | src/simulations/nbody.rs:216 | the drag factor is the value the shared Drag setting holds |
| NBodySim.NBody.Update | src/simulations/nbody.rs:185-231 | an update equals Advance: the trail snapshot, the force pass with the shared gravity, the steps with the shared speed and drag, the body recentring and the trail passes as written. It logs UpdateLog(n) and needs at least one body |
| NBodySim.NBody.StepBodies | src/simulations/nbody.rs:191-219 | the force pass and the steps together: every body is stepped under its net force, and the pair lines then the body lines are logged |
| NBodySim.NBody.SnapshotTrail | src/simulations/nbody.rs:186-189 | the trail grows by one marker per body, in body order |
| NBodySim.NBody.PairForces | src/simulations/nbody.rs:191-209 | the force pass accumulates the pair forces over all pairs i < j and logs one line per pair in visiting order |
| NBodySim.NBody.PassRows | src/simulations/nbody.rs:192-209 | the outer loop runs rows 0 to n - 2 in order: the forces are those of the pairs of those rows and the log has their lines in visiting order |
| NBodySim.NBody.PassRow | src/simulations/nbody.rs:192-209 | one turn of the outer loop extends the forces and the log of the rows before it by row i |
| NBodySim.NBody.PairRow | src/simulations/nbody.rs:193-208 | one row of the inner loop accumulates that row and logs its lines |
| NBodySim.NBody.VisitPair | src/simulations/nbody.rs:194-207 | one pair subtracts the force from body i, adds it to body j, and logs one line |
| NBodySim.NBody.ApplyForces | src/simulations/nbody.rs:211-219 | every body is stepped under its own force, with the shared speed as time and the shared drag, and one line is logged per body |
| NBodySim.NBody.Recenter | src/simulations/nbody.rs:221-230 | the bodies move by a tenth of the centroid, x then y; the trail gets both passes as written, a tenth of the centroid's x twice |
| Ransac.InlierCount | src/simulations/nbody.rs:106-112 | the inlier count of a candidate never exceeds the number of bodies |
| Ransac.SelfIsInlier | src/simulations/nbody.rs:106-112 | every candidate counts itself, so each count is at least 1 |
| Ransac.FirstMaxIsFirstMaximum | src/simulations/nbody.rs:113-117 | the strict comparison keeps an index of maximal count, and every earlier index has a strictly smaller count |
| Ransac.FirstMaximumUnique | src/simulations/nbody.rs:113-117 | the winner is exactly the first index of maximal count |
| Ransac.RansacCentroid | src/simulations/nbody.rs:101-129 | the loop returns (0, 0) for no bodies, and otherwise the inlier sum of the first candidate with the most inliers, divided by the number of bodies |
| Ransac.MoveAll | src/simulations/nbody.rs:223-228 | a pass over a collection moves every body by the same offset and keeps the order |
| Ransac.Recentred | src/simulations/nbody.rs:223-228 | the two passes over a collection move every body by a tenth of the centroid |
| Ransac.RecenterKeepsOffsets | src/simulations/nbody.rs:223-230 | intended recentring keeps every marker's offset from every body |
| Ransac.TrailRecenterAsWritten | src/simulations/nbody.rs:229-230 | the trail passes as written move every marker by 0.2 times the centroid's x and not at all along y |
| Ransac.TrailRecenterAsWrittenDrifts | src/simulations/nbody.rs:229-230 | as written, trail markers never move vertically and move twice as far horizontally as the bodies |
| Ransac.TrailRecenterAsWrittenCounterexample | src/simulations/nbody.rs:221-230 | a body and the marker it just left, with centroid (10, 10), end at (-1, -1) and (-2, 0) |
| Engine.PanelAfter | src/simulations.rs:177-180 | a pressed key changes the panel as follows. Left decrements and right increments only the selected setting. Up and down move only the selection, clamped at the ends. Every other key leaves settings and selection unchanged |
| Engine.PanelOn | src/simulations.rs:150-151 | a tick without a key press leaves the panel unchanged |
| Engine.OnKey | src/simulations.rs:172-183 | 'q' raises exit, space flips pause, 'r' raises reset; no other key touches a flag |
| Engine.PauseToggleTwice | src/simulations.rs:175 | two presses of space restore every flag |
| Engine.TickFlags | src/simulations.rs:138-151 | after a tick, reset is raised exactly when the tick's event was an 'r' press |
| Engine.QuitTick | src/simulations.rs:138 | the tick of the first 'q' press never lies past the inputs |
| Engine.RunEndsAtFirstQuit | src/simulations.rs:138-151 | a loop that starts without exit runs exactly up to and including the first 'q' press, or through all inputs |
| Engine.RunFlagsCount | src/simulations.rs:138-151 | exit ends raised exactly when it was raised or 'q' was pressed; pause ends flipped exactly after an odd number of space presses |
| Engine.Simulation.Init | src/simulations/nbody.rs:143-173 | start-up state: not exiting, no reset, paused, 60 fps; speed 3, G 100, drag 0.99 with the first setting selected; three bodies, an empty trail, id counter 3 and an empty log |
| Engine.Simulation.Exit | src/simulations.rs:185-187 | exit is raised and nothing else changes |
| Engine.Simulation.HandleKeyEvent | src/simulations.rs:172-183 | the flags follow OnKey and the shared settings and selection follow PanelAfter |
| Engine.Simulation.HandleEvents | src/simulations.rs:162-170 | only key presses are handled: the flags and the panel change as the pressed key says, and releases, repeats and other events change nothing |
| Engine.Simulation.HandleTickEvent | src/simulations.rs:150-152 | the event of a tick, if any, acts on the flags and the panel as its key press says |
| Engine.Simulation.Tick | src/simulations.rs:138-152 | a pending reset is carried out and cleared first. The simulation advances exactly when not paused, reading the settings as they were before the event. Then the event changes the flags and the shared settings as its key press says, and that change is what the next tick's update reads |
| Engine.Simulation.ResetIfPending | src/simulations.rs:139-142 | a pending reset rebuilds the scenario and clears the flag; otherwise nothing changes |
| Engine.Simulation.UpdateUnlessPaused | src/simulations.rs:146-148 | the simulation advances one update exactly when not paused |
| Engine.Simulation.ResetAndUpdate | src/simulations.rs:139-148 | reset before update, the update only when not paused |
| Engine.Simulation.Run | src/simulations.rs:137-157 | the loop runs while exit is not raised, one tick per input. It ends in the state RunState gives for the ticks it ran: the flags, the shared settings and selection, the bodies and trail, the id counter and the log |
| Engine.TickStep | src/simulations.rs:138-152 | one tick as a state transition: the flags follow TickFlags, the panel follows the tick's key press, the log grows by one update's lines exactly when not paused, and three massive bodies remain |
| Engine.RunState | src/simulations.rs:137-157 | ticks over a sequence of inputs, in order: the flags are those of RunFlags, and the engine stays well-formed, with three massive bodies and a selection inside the settings |
| Engine.PanelKeepsShape | src/simulations.rs:172-183 | a key press keeps the selection inside the settings and each slot's kind: speed, gravity, drag |
| NBodySim.NBody.HandleKeyEvents | src/simulations/nbody.rs:180-184 | the N-body scenario ignores every key forwarded to it: nothing changes |

## Left out

- Floating point: reals stand for `f64`. Rounding, overflow to infinity and NaN are not modelled. A zero distance between two bodies, which makes the program divide by zero, is the force parameter's business.
- The pair force formula (src/simulations/nbody.rs:196-198) needs a square root. It is the parameter `pull`, applied to G and the two bodies. Its log text only keeps the pair indices.
- The numbers printed in the log lines (the distance after "r:" and the force vector) are not modelled. Each line keeps its fixed text and indices.
- The displayed values of Gravity and Drag (`{:.0}` and `{:.2}` formatting) are not modelled. Only the Speed value's decimal text is.
- Settings.Setting.Increment: Speed wraps at the i64 limits, as a release build does. A debug build panics on that overflow instead.
- Settings.Setting.Decrement: Speed wraps at the i64 limits, as a release build does. A debug build panics on that overflow instead.
- Frame-rate estimation (src/simulations.rs:144, 153-154) uses the wall clock and a float moving average. `fps` is set to 60 at start-up and is not updated by the model.
- Randomness: `Body::rand` draws from a foreign random generator. Each draw is an input `Draw` within the generator's ranges.
- Terminal I/O: drawing, `event::poll` with its 16 ms timeout, and `event::read` are not modelled. Each tick receives its event, or none, as input.
- Rendering is not modelled: the widgets, `SettingsBlock::render`, the canvas, the info text, `Icon::print`, `Body::to_line` and `Display`.
- The main loop runs over a finite sequence of tick inputs. The program's loop can run forever.
- I/O errors returned by `run` and `handle_events` are not modelled.
- NBodySim.NBody.Update requires at least one body, because the program's `len() - 1` underflows on an empty list. Every update the engine issues has three bodies.
- Shared ownership (`Rc<RefCell<..>>`) is modelled as shared Dafny objects: one logger and one settings array. Borrow-time panics cannot happen in this sequential program and are not modelled.
- Selecting a simulation in src/main.rs, and the terminal setup there, are not part of this model.

## Findings

| source | as written | input that shows it | evidently intended | confidence | as-written member | corrected member |
|---|---|---|---|---|---|---|
| src/simulations/nbody.rs:229-230 | both trail passes subtract a tenth of the centroid's x; none touches y | a body at (0, 0) and the marker it just left, centroid (10, 10): the body ends at (-1, -1), the marker at (-2, 0) | the second pass subtracts a tenth of the centroid's y, as the body passes at 223-228 do, so markers move with the bodies | high, not executed | Ransac.TrailRecenterAsWrittenCounterexample | Ransac.RecenterKeepsOffsets |
