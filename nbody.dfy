/** The N-body scenario: three bodies, a trail of markers, the shared logger and the
    shared settings. Its update leaves trail markers, runs the pairwise force pass,
    steps every body, and recentres everything on the RANSAC centroid. */
module NBodySim {
  import opened Decimal
  import opened Logging
  import opened Settings
  import opened Bodies
  import opened Pairs
  import opened Ransac
  import opened Keys

  /** Where each setting sits in the shared settings array (panel order). */
  const SpeedSlot: nat := 0
  const GravitySlot: nat := 1
  const DragSlot: nat := 2

  /** The settings at start-up: speed 3, G = 100, drag 0.99. */
  const InitialSettings: seq<Setting> := [Speed(3), Gravity(100.0), Drag(0.99)]

  /** The number of bodies initialisation and reset create. */
  const EntityCount: nat := 3

  /** The settings array holds speed, gravity and drag, in that order. */
  predicate StoreShape(s: seq<Setting>)
  {
    |s| == 3 && s[SpeedSlot].Speed? && s[GravitySlot].Gravity? && s[DragSlot].Drag?
  }

  /** Every simulated body has positive mass (trail markers, of mass 0, are never
      simulated). */
  predicate Massive(es: seq<Body>)
  {
    forall k :: 0 <= k < |es| ==> es[k].mass > 0.0
  }

  predicate ValidDraws(draws: seq<Draw>)
  {
    |draws| == EntityCount && forall k :: 0 <= k < |draws| ==> InSpawnRange(draws[k])
  }

  /** The bodies that initialisation and reset create: ids 0, 1 and 2. */
  function Spawned(draws: seq<Draw>): (es: seq<Body>)
    requires ValidDraws(draws)
    ensures |es| == EntityCount && Massive(es)
    ensures forall k :: 0 <= k < |es| ==> es[k].mass == 1.0 && es[k].icon == Icon(SunGlyph, Colours[k])
  {
    [RandBody(0, draws[0]), RandBody(1, draws[1]), RandBody(2, draws[2])]
  }

  /** One trail marker per body, in body order. */
  function Snapshots(es: seq<Body>): (ms: seq<Body>)
    ensures |ms| == |es|
  {
    seq(|es|, k requires 0 <= k < |es| => GetTrail(es[k]))
  }

  /** Every body stepped under its own net force. */
  function StepAll(es: seq<Body>, forces: seq<Vec>, time: real, drag: real): (r: seq<Body>)
    requires |forces| == |es| && Massive(es)
    ensures |r| == |es| && Massive(r)
  {
    seq(|es|, k requires 0 <= k < |es| => Step(es[k], forces[k], time, drag))
  }

  /** Part way through the stepping loop: the first `i` bodies are stepped and the
      rest are as they were. */
  predicate StepsDone(orig: seq<Body>, es: seq<Body>, forces: seq<Vec>, time: real, drag: real, i: nat)
  {
    Massive(orig) && |es| == |orig| == |forces| && i <= |es|
    && (forall k :: 0 <= k < i ==> es[k] == Step(orig[k], forces[k], time, drag))
    && (forall k :: i <= k < |es| ==> es[k] == orig[k])
  }

  lemma StepsDoneNext(orig: seq<Body>, es: seq<Body>, forces: seq<Vec>, time: real, drag: real, i: nat)
    requires StepsDone(orig, es, forces, time, drag, i) && i < |es|
    ensures StepsDone(orig, es[i := Step(es[i], forces[i], time, drag)], forces, time, drag, i + 1)
  {
  }

  /** With every body stepped, the loop's sequence is StepAll's. */
  lemma StepsDoneAll(orig: seq<Body>, es: seq<Body>, forces: seq<Vec>, time: real, drag: real)
    requires StepsDone(orig, es, forces, time, drag, |es|)
    ensures es == StepAll(orig, forces, time, drag)
  {
  }

  /** The log line of a visited pair; the distance printed after it is not modelled. */
  function PairLine(p: Pair): string
  {
    "[" + NatToString(p.0) + "," + NatToString(p.1) + "] r: "
  }

  /** The log line of a stepped body; the force printed after it is not modelled. */
  function ForceLine(i: nat): string
  {
    "[" + NatToString(i) + "] force: "
  }

  function PairLines(ps: seq<Pair>): (r: seq<string>)
    ensures |r| == |ps|
  {
    if ps == [] then [] else PairLines(ps[..|ps| - 1]) + [PairLine(ps[|ps| - 1])]
  }

  function ForceLines(n: nat): (r: seq<string>)
    ensures |r| == n
  {
    if n == 0 then [] else ForceLines(n - 1) + [ForceLine(n - 1)]
  }

  /** One more stepped body, one more line after the log so far. */
  lemma ForceLinesSnoc(h: seq<string>, i: nat)
    ensures h + ForceLines(i) + [ForceLine(i)] == h + ForceLines(i + 1)
  {
  }

  lemma {:induction false} PairLinesAppend(ps: seq<Pair>, qs: seq<Pair>)
    ensures PairLines(ps + qs) == PairLines(ps) + PairLines(qs)
    decreases |qs|
  {
    if qs != [] {
      var q := qs[..|qs| - 1];
      var last := qs[|qs| - 1];
      assert ps + qs == (ps + q) + [last];
      assert (ps + q + [last])[..|ps + q|] == ps + q;
      PairLinesAppend(ps, q);
    } else {
      assert ps + qs == ps;
    }
  }

  /** The log lines of row `i` below `j`. */
  function RowLines(i: nat, j: nat): seq<string>
    decreases j
  {
    if j <= i + 1 then [] else RowLines(i, j - 1) + [PairLine((i, j - 1))]
  }

  lemma {:induction false} RowLinesOfRow(i: nat, j: nat)
    ensures RowLines(i, j) == PairLines(Row(i, j))
    decreases j
  {
    if j > i + 1 {
      RowLinesOfRow(i, j - 1);
      assert (Row(i, j - 1) + [(i, j - 1)])[..|Row(i, j - 1)|] == Row(i, j - 1);
    }
  }

  /** Logging row `i` after the pairs visited before it. */
  lemma LogRow(h: seq<string>, visited: seq<Pair>, i: nat, n: nat)
    ensures h + PairLines(visited) + RowLines(i, n) == h + PairLines(visited + Row(i, n))
  {
    var lines, row := PairLines(visited), RowLines(i, n);
    assert h + lines + row == h + (lines + row);
    RowLinesOfRow(i, n);
    PairLinesAppend(visited, Row(i, n));
  }

  /** The pass stops one row early: the last row is empty, so the rows below
      n - 1 are all the pairs. */
  lemma LastRowEmpty(n: nat)
    requires n >= 1
    ensures AllPairs(n) == PairsBelow(n - 1, n)
  {
    assert Row(n - 1, n) == [];
  }

  /** After the rows below n - 1 the pass has visited every pair: its forces are the
      net forces and its log holds one line per pair. */
  lemma PassComplete(es: seq<Body>, g: real, pull: PairForce, h: seq<string>, visited: seq<Pair>)
    requires |es| >= 1 && visited == PairsBelow(|es| - 1, |es|)
    ensures Accumulate(es, g, pull, visited) == Forces(es, g, pull)
    ensures h + PairLines(visited) == h + PairLines(AllPairs(|es|))
  {
    LastRowEmpty(|es|);
  }

  /** Everything one update of `n` bodies logs: one line per visited pair, in visit
      order, then one line per body. */
  function UpdateLog(n: nat): seq<string>
  {
    PairLines(AllPairs(n)) + ForceLines(n)
  }

  /** The log of the force pass followed by the log of the steps is the update's
      log. */
  lemma UpdateLogSplit(h: seq<string>, n: nat)
    ensures h + PairLines(AllPairs(n)) + ForceLines(n) == h + UpdateLog(n)
  {
    var pairs, steps := PairLines(AllPairs(n)), ForceLines(n);
    assert h + pairs + steps == h + (pairs + steps);
  }

  /** One update of `n` bodies logs n(n-1)/2 + n lines. */
  lemma UpdateLogLength(n: nat)
    ensures |UpdateLog(n)| == n * (n - 1) / 2 + n
  {
    AllPairsExactlyOnce(n);
  }

  /** The movable state of the scenario. */
  datatype World = World(entities: seq<Body>, trail: seq<Body>)

  /** The bodies after the force pass and the integration step, before recentring. */
  function Stepped(w: World, g: real, time: real, drag: real, pull: PairForce): seq<Body>
    requires Massive(w.entities)
  {
    StepAll(w.entities, Forces(w.entities, g, pull), time, drag)
  }

  /** The world after one update: markers for the pre-step positions appended to the
      trail, every body stepped, then the bodies recentred on a tenth of the
      centroid and the trail moved as the program does it, twice along x. */
  function Advance(w: World, g: real, time: real, drag: real, pull: PairForce): (r: World)
    requires Massive(w.entities)
    ensures |r.entities| == |w.entities| && |r.trail| == |w.trail| + |w.entities|
  {
    var stepped := Stepped(w, g, time, drag, pull);
    var c := Centroid(stepped);
    World(Recentred(stepped, c), TrailRecenterAsWritten(w.trail + Snapshots(w.entities), c))
  }

  /** One update keeps the bodies: as many as before, each with its mass and icon;
      and the trail grows by one marker per body. */
  lemma AdvanceKeepsBodies(w: World, g: real, time: real, drag: real, pull: PairForce)
    requires Massive(w.entities)
    ensures var w' := Advance(w, g, time, drag, pull);
            && |w'.entities| == |w.entities| && Massive(w'.entities)
            && |w'.trail| == |w.trail| + |w.entities|
            && forall k :: 0 <= k < |w.entities| ==>
                 w'.entities[k].mass == w.entities[k].mass && w'.entities[k].icon == w.entities[k].icon
  {
    var stepped := Stepped(w, g, time, drag, pull);
    var es := Advance(w, g, time, drag, pull).entities;
    forall k | 0 <= k < |w.entities|
      ensures es[k].mass == w.entities[k].mass && es[k].icon == w.entities[k].icon
    {
      assert es[k] == Moved(stepped[k], 0.1 * Centroid(stepped).x, 0.1 * Centroid(stepped).y);
    }
  }

  /** Markers appended for `es` and then moved as the program moves the trail: the
      old markers and the new ones all shift by a fifth of the centroid's x and
      keep their y. The new markers come after the old ones, one per body in body
      order, each a massless, motionless dot of that body's colour. */
  lemma MarkersRecentred(trail: seq<Body>, es: seq<Body>, c: Vec)
    ensures var t := TrailRecenterAsWritten(trail + Snapshots(es), c);
            && |t| == |trail| + |es|
            && (forall k :: 0 <= k < |trail| ==>
                  t[k].x == trail[k].x - 0.2 * c.x && t[k].y == trail[k].y
                  && t[k].mass == trail[k].mass && t[k].icon == trail[k].icon)
            && (forall k :: 0 <= k < |es| ==>
                  var m := t[|trail| + k];
                  && m.mass == 0.0 && m.dx == 0.0 && m.dy == 0.0
                  && m.icon == Icon(DotGlyph, es[k].icon.color)
                  && m.x == es[k].x - 0.2 * c.x && m.y == es[k].y)
  {
    var before := trail + Snapshots(es);
    var t := TrailRecenterAsWritten(before, c);
    forall k | 0 <= k < |trail|
      ensures t[k] == Moved(trail[k], 0.2 * c.x, 0.0)
    {
      assert before[k] == trail[k];
    }
    forall k | 0 <= k < |es|
      ensures t[|trail| + k] == Moved(GetTrail(es[k]), 0.2 * c.x, 0.0)
    {
      assert before[|trail| + k] == GetTrail(es[k]);
    }
  }

  /** The N-body simulation. The logger, the panel and the settings array are shared
      with the engine: the same objects, not copies. */
  class NBody {
    const logger: Logger
    const panel: SettingsBlock
    const store: array<Setting>
    var entities: seq<Body>
    var trail: seq<Body>
    var idCounter: nat

    ghost predicate Valid()
      reads this, panel, store
    {
      panel.settings == store && panel.Valid() && StoreShape(store[..]) && Massive(entities)
    }

    ghost function State(): World
      reads this
    {
      World(entities, trail)
    }

    /** The gravitational constant, read from the shared settings. */
    function GravityValue(): (g: real)
      reads store
      requires StoreShape(store[..])
      ensures store[GravitySlot] == Gravity(g)
    {
      store[GravitySlot].g
    }

    /** The integer speed setting, converted to a time step. The real stands for the
        program's `as f64` conversion; that conversion rounds integers beyond 2^53,
        which is part of the floating-point behaviour this model leaves out. */
    function TimeValue(): (t: real)
      reads store
      requires StoreShape(store[..])
      ensures t == store[SpeedSlot].steps as int as real
      ensures I64Min as real <= t <= I64Max as real
    {
      store[SpeedSlot].steps as int as real
    }

    /** The drag factor, read from the shared settings. */
    function DragValue(): (d: real)
      reads store
      requires StoreShape(store[..])
      ensures store[DragSlot] == Drag(d)
    {
      store[DragSlot].factor
    }

    /** Initialisation: three fresh bodies, no trail, id counter 3. */
    constructor (logger: Logger, panel: SettingsBlock, draws: seq<Draw>)
      requires panel.Valid() && StoreShape(panel.settings[..]) && ValidDraws(draws)
      ensures Valid()
      ensures this.logger == logger && this.panel == panel && store == panel.settings
      ensures entities == Spawned(draws) && trail == [] && idCounter == EntityCount
    {
      this.logger := logger;
      this.panel := panel;
      store := panel.settings;
      entities := Spawned(draws);
      trail := [];
      idCounter := EntityCount;
    }

    /** Throws the old scenario away: three new bodies, no trail, id counter 3. */
    method Reset(draws: seq<Draw>)
      requires Valid() && ValidDraws(draws)
      modifies this
      ensures Valid()
      ensures entities == Spawned(draws) && trail == [] && idCounter == EntityCount
    {
      entities := Spawned(draws);
      trail := [];
      idCounter := EntityCount;
    }

    /** Keys the engine does not claim reach this handler, which ignores them: it
        changes nothing. */
    method HandleKeyEvents(key: KeyEvent)
      ensures unchanged(this) && unchanged(panel) && unchanged(store) && unchanged(logger)
    {
    }

    /** One step of the scenario. With no bodies the bound `len() - 1` of the pair
        loop would underflow, so at least one body is required. */
    method Update(pull: PairForce)
      requires Valid() && logger.Valid() && |entities| >= 1
      modifies this`entities, this`trail, logger
      ensures Valid() && logger.Valid()
      ensures State() == Advance(old(State()), GravityValue(), TimeValue(), DragValue(), pull)
      ensures logger.history == old(logger.history) + UpdateLog(old(|entities|))
    {
      SnapshotTrail();
      StepBodies(pull);
      var c := RansacCentroid(entities);
      Recenter(c);
    }

    /** The pairwise force pass followed by the integration step, with everything
        they log. */
    method StepBodies(pull: PairForce)
      requires Valid() && logger.Valid() && |entities| >= 1
      modifies this`entities, logger
      ensures Valid() && logger.Valid()
      ensures entities == Stepped(World(old(entities), trail), GravityValue(), TimeValue(), DragValue(), pull)
      ensures logger.history == old(logger.history) + UpdateLog(old(|entities|))
    {
      var forces := PairForces(pull, store[GravitySlot].g);
      ApplyForces(forces);
      UpdateLogSplit(old(logger.history), |entities|);
    }

    /** Moves the bodies by a tenth of the centroid, x then y, and then makes the
        program's two trail passes, both of which subtract a tenth of the centroid's
        x (see `TrailRecenterAsWritten`). */
    method Recenter(c: Vec)
      requires Valid()
      modifies this`entities, this`trail
      ensures Valid()
      ensures entities == Recentred(old(entities), c)
      ensures trail == TrailRecenterAsWritten(old(trail), c)
    {
      entities := MoveAll(entities, 0.1 * c.x, 0.0);
      entities := MoveAll(entities, 0.0, 0.1 * c.y);
      trail := MoveAll(trail, 0.1 * c.x, 0.0);
      trail := MoveAll(trail, 0.1 * c.x, 0.0);
    }

    /** Appends one marker per body, in body order. */
    method SnapshotTrail()
      modifies this`trail
      ensures trail == old(trail) + Snapshots(entities)
    {
      ghost var t0 := trail;
      for k := 0 to |entities|
        invariant |trail| == |t0| + k
        invariant trail[..|t0|] == t0
        invariant forall m :: 0 <= m < k ==> trail[|t0| + m] == GetTrail(entities[m])
      {
        trail := trail + [GetTrail(entities[k])];
      }
      assert trail == t0 + Snapshots(entities);
    }

    /** The pairwise pass: for i below n - 1 and j from i + 1 below n, the pull of
        body i on body j is taken from i's force and added to j's, and the pair is
        logged. */
    method PairForces(pull: PairForce, g: real) returns (forces: seq<Vec>)
      requires logger.Valid() && |entities| >= 1
      modifies logger
      ensures logger.Valid()
      ensures forces == Forces(entities, g, pull)
      ensures logger.history == old(logger.history) + PairLines(AllPairs(|entities|))
    {
      forces := PassRows(pull, g);
      PassComplete(entities, g, pull, old(logger.history), PairsBelow(|entities| - 1, |entities|));
    }

    /** After rows 0 to i - 1 of the pairwise pass: the forces are those of the pairs
        visited so far, and the log extends `h` by exactly those pairs. */
    ghost predicate RowsDone(pull: PairForce, g: real, h: seq<string>, forces: seq<Vec>, i: nat)
      reads this, logger
    {
      logger.Valid() && i < |entities|
      && forces == Accumulate(entities, g, pull, PairsBelow(i, |entities|))
      && logger.history == h + PairLines(PairsBelow(i, |entities|))
    }

    /** The rows of the pairwise pass, one after another: rows 0 to n - 2, the
        last row being empty. */
    method PassRows(pull: PairForce, g: real) returns (forces: seq<Vec>)
      requires logger.Valid() && |entities| >= 1
      modifies logger
      ensures logger.Valid()
      ensures forces == Accumulate(entities, g, pull, PairsBelow(|entities| - 1, |entities|))
      ensures logger.history == old(logger.history) + PairLines(PairsBelow(|entities| - 1, |entities|))
    {
      var n := |entities|;
      forces := Zeros(n);
      var i := 0;
      while i < n - 1
        invariant i <= n - 1
        invariant RowsDone(pull, g, old(logger.history), forces, i)
      {
        forces := PassRow(pull, g, i, old(logger.history), forces);
        i := i + 1;
      }
      assert i == n - 1 && n == |entities|;
    }

    /** Row `i` of the pairwise pass, stated against the rows before it: the forces
        and the log of rows 0 to i extend those of rows 0 to i - 1 by this row. */
    method PassRow(pull: PairForce, g: real, i: nat, ghost h: seq<string>, prior: seq<Vec>)
      returns (forces: seq<Vec>)
      requires i + 1 < |entities| && RowsDone(pull, g, h, prior, i)
      modifies logger
      ensures RowsDone(pull, g, h, forces, i + 1)
    {
      ghost var visited := PairsBelow(i, |entities|);
      assert PairsBelow(i + 1, |entities|) == visited + Row(i, |entities|);
      forces := PairRow(pull, g, i, prior);
      RowAccumulateVisits(entities, g, pull, visited, i, |entities|);
      LogRow(h, visited, i, |entities|);
    }

    /** Row `i` of the pairwise pass: for j from i + 1 below n, the pull of body i
        on body j is taken from i's force and added to j's, and the pair is logged. */
    method PairRow(pull: PairForce, g: real, i: nat, prior: seq<Vec>) returns (forces: seq<Vec>)
      requires logger.Valid() && i + 1 < |entities| && |prior| == |entities|
      modifies logger
      ensures logger.Valid()
      ensures forces == RowAccumulate(entities, g, pull, prior, i, |entities|)
      ensures logger.history == old(logger.history) + RowLines(i, |entities|)
    {
      forces := prior;
      for j := i + 1 to |entities|
        invariant logger.Valid()
        invariant forces == RowAccumulate(entities, g, pull, prior, i, j)
        invariant logger.history == old(logger.history) + RowLines(i, j)
      {
        ghost var h, lines := old(logger.history), RowLines(i, j);
        assert h + lines + [PairLine((i, j))] == h + (lines + [PairLine((i, j))]);
        forces := VisitPair(pull, g, i, j, forces);
      }
    }

    /** One visit of the pairwise pass: the pull of body i on body j is taken from
        i's force and added to j's, and the pair is logged. */
    method VisitPair(pull: PairForce, g: real, i: nat, j: nat, prior: seq<Vec>) returns (forces: seq<Vec>)
      requires logger.Valid() && i < j < |entities| && |prior| == |entities|
      modifies logger
      ensures logger.Valid()
      ensures forces == AddPair(prior, i, j, pull(g, entities[i], entities[j]))
      ensures logger.history == old(logger.history) + [PairLine((i, j))]
    {
      var f := pull(g, entities[i], entities[j]);
      forces := prior[i := prior[i].Minus(f)];
      forces := forces[j := forces[j].Plus(f)];
      logger.Log(PairLine((i, j)));
    }

    /** Steps every body under its net force with the current speed and drag, and
        logs each. */
    method ApplyForces(forces: seq<Vec>)
      requires Valid() && logger.Valid() && |forces| == |entities|
      modifies this`entities, logger
      ensures Valid() && logger.Valid()
      ensures entities == StepAll(old(entities), forces, TimeValue(), DragValue())
      ensures logger.history == old(logger.history) + ForceLines(|entities|)
    {
      var time, drag := TimeValue(), DragValue();
      var es := entities;
      for i := 0 to |es|
        invariant StepsDone(entities, es, forces, time, drag, i)
        invariant logger.Valid() && logger.history == old(logger.history) + ForceLines(i)
        modifies logger
      {
        StepsDoneNext(entities, es, forces, time, drag, i);
        es := es[i := Step(es[i], forces[i], time, drag)];
        logger.Log(ForceLine(i));
        ForceLinesSnoc(old(logger.history), i);
      }
      StepsDoneAll(entities, es, forces, time, drag);
      entities := es;
    }
  }
}
