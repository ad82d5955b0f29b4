/** The engine around a simulation: the quit, pause and reset flags, the dispatch of
    key presses between the engine, the settings panel and the simulation, and the
    main loop that resets, updates and reads one event per tick. */
module Engine {
  import opened Keys
  import opened Logging
  import opened Settings
  import opened Bodies
  import opened Pairs
  import opened NBodySim

  /** Who handles a pressed key. */
  datatype Route =
    | Quit
    | TogglePause
    | RequestReset
    | PanelLeft
    | PanelRight
    | PanelUp
    | PanelDown
    | ToSimulation

  /** The engine claims 'q', space and 'r'; the arrows go to the settings panel;
      every other key is passed on to the simulation. */
  function RouteOf(code: KeyCode): Route
  {
    match code
    case Char('q') => Quit
    case Char(' ') => TogglePause
    case Char('r') => RequestReset
    case Left => PanelLeft
    case Right => PanelRight
    case Up => PanelUp
    case Down => PanelDown
    case _ => ToSimulation
  }

  /** The engine's three flags. */
  datatype Flags = Flags(exit: bool, reset: bool, pause: bool)

  /** The flags after one pressed key: 'q' raises exit, space flips pause, 'r' raises
      reset, and no other key touches a flag. */
  function OnKey(f: Flags, code: KeyCode): (r: Flags)
    ensures r.exit == (f.exit || code == Char('q'))
    ensures r.pause == (f.pause != (code == Char(' ')))
    ensures r.reset == (f.reset || code == Char('r'))
  {
    match RouteOf(code)
    case Quit => f.(exit := true)
    case TogglePause => f.(pause := !f.pause)
    case RequestReset => f.(reset := true)
    case _ => f
  }

  /** Two presses of space restore the pause flag, and every other flag. */
  lemma PauseToggleTwice(f: Flags)
    ensures OnKey(OnKey(f, Char(' ')), Char(' ')) == f
  {
  }

  /** What the settings panel holds: the settings, in panel order, and the
      selected index. */
  datatype Panel = Panel(settings: seq<Setting>, selected: nat)

  /** The panel after a pressed key: left decrements and right increments the
      selected setting only, up and down move the selection, clamped at the ends,
      and every other key leaves the panel as it was. */
  function PanelAfter(p: Panel, code: KeyCode): (r: Panel)
    requires p.selected < |p.settings|
    ensures |r.settings| == |p.settings| && r.selected < |r.settings|
    ensures forall k :: 0 <= k < |p.settings| && k != p.selected ==> r.settings[k] == p.settings[k]
    ensures r.settings[p.selected]
              == if code == KeyCode.Left then p.settings[p.selected].Decrement()
                 else if code == KeyCode.Right then p.settings[p.selected].Increment()
                 else p.settings[p.selected]
    ensures r.selected
              == if code == KeyCode.Up then MoveUp(p.selected)
                 else if code == KeyCode.Down then MoveDown(p.selected, |p.settings|)
                 else p.selected
  {
    var sel := p.selected;
    match RouteOf(code)
    case PanelLeft => p.(settings := p.settings[sel := p.settings[sel].Decrement()])
    case PanelRight => p.(settings := p.settings[sel := p.settings[sel].Increment()])
    case PanelUp => p.(selected := MoveUp(sel))
    case PanelDown => p.(selected := MoveDown(sel, |p.settings|))
    case _ => p
  }

  /** The panel after the key pressed in a tick, if any. */
  function PanelOn(p: Panel, code: Option<KeyCode>): (r: Panel)
    requires p.selected < |p.settings|
    ensures code.None? ==> r == p
  {
    match code
    case Some(c) => PanelAfter(p, c)
    case None => p
  }

  /** A key press never changes which setting sits in which slot, and keeps the
      selection on a setting. */
  lemma PanelKeepsShape(p: Panel, code: Option<KeyCode>)
    requires p.selected < |p.settings| && StoreShape(p.settings)
    ensures var r := PanelOn(p, code);
            r.selected < |r.settings| && StoreShape(r.settings)
  {
    var r := PanelOn(p, code);
    if code.Some? {
      var before, after := p.settings[p.selected], r.settings[p.selected];
      assert after.Speed? == before.Speed? && after.Gravity? == before.Gravity? && after.Drag? == before.Drag?;
      forall k | 0 <= k < |p.settings|
        ensures r.settings[k].Speed? == p.settings[k].Speed? && r.settings[k].Gravity? == p.settings[k].Gravity?
                && r.settings[k].Drag? == p.settings[k].Drag?
      {
      }
    }
  }

  /** The key code of an event if it is a key press; releases, repeats and other
      events are not presses. */
  function Pressed(ev: Option<Event>): Option<KeyCode>
  {
    match ev
    case Some(Key(KeyEvent(code, Press))) => Some(code)
    case _ => None
  }

  /** The flags after the event read in a tick, if any. */
  function OnEvent(f: Flags, ev: Option<Event>): Flags
  {
    match Pressed(ev)
    case Some(code) => OnKey(f, code)
    case None => f
  }

  /** The flags after one tick: a pending reset is carried out (and so cleared)
      before the event is read. */
  function TickFlags(f: Flags, ev: Option<Event>): (r: Flags)
    ensures r.reset == (Pressed(ev) == Some(Char('r')))
  {
    OnEvent(f.(reset := false), ev)
  }

  /** What one tick of the main loop receives from outside: the random draws a
      reset would use, and the event read during the tick, if one arrived within
      the poll timeout. */
  datatype TickInput = TickInput(draws: seq<Draw>, event: Option<Event>)

  /** The flags after ticks with these inputs. */
  function RunFlags(f: Flags, inputs: seq<TickInput>): Flags
  {
    if inputs == [] then f
    else TickFlags(RunFlags(f, inputs[..|inputs| - 1]), inputs[|inputs| - 1].event)
  }

  /** How many ticks the loop runs: it stops as soon as exit is raised, or when the
      inputs run out. */
  function Ticks(f: Flags, inputs: seq<TickInput>): nat
    decreases |inputs|
  {
    if f.exit || inputs == [] then 0
    else 1 + Ticks(TickFlags(f, inputs[0].event), inputs[1..])
  }

  /** Independent of the flags: the ticks up to and including the first 'q' press,
      or all of them when none comes. */
  function QuitTick(inputs: seq<TickInput>): (t: nat)
    ensures t <= |inputs|
  {
    if inputs == [] then 0
    else if Pressed(inputs[0].event) == Some(Char('q')) then 1
    else 1 + QuitTick(inputs[1..])
  }

  /** A loop that starts without exit set runs exactly until the first 'q' press. */
  lemma {:induction false} RunEndsAtFirstQuit(f: Flags, inputs: seq<TickInput>)
    requires !f.exit
    ensures Ticks(f, inputs) == QuitTick(inputs)
    ensures forall k :: 0 <= k < Ticks(f, inputs) - 1 ==> Pressed(inputs[k].event) != Some(Char('q'))
    ensures Ticks(f, inputs) < |inputs| ==> Pressed(inputs[Ticks(f, inputs) - 1].event) == Some(Char('q'))
    decreases |inputs|
  {
    if inputs != [] {
      var g := TickFlags(f, inputs[0].event);
      if Pressed(inputs[0].event) != Some(Char('q')) {
        RunEndsAtFirstQuit(g, inputs[1..]);
        var t := Ticks(g, inputs[1..]);
        forall k | 1 <= k < t
          ensures Pressed(inputs[k].event) != Some(Char('q'))
        {
          assert inputs[k] == inputs[1..][k - 1];
        }
        if t < |inputs| - 1 {
          assert inputs[t] == inputs[1..][t - 1];
        }
      }
    }
  }

  /** The number of ticks among `inputs` whose event is a press of `code`. */
  function PressCount(inputs: seq<TickInput>, code: KeyCode): nat
  {
    if inputs == [] then 0
    else PressCount(inputs[..|inputs| - 1], code)
         + (if Pressed(inputs[|inputs| - 1].event) == Some(code) then 1 else 0)
  }

  /** Over any ticks, exit is raised exactly when it already was or 'q' was pressed,
      and pause ends flipped exactly when space was pressed an odd number of times. */
  lemma {:induction false} RunFlagsCount(f: Flags, inputs: seq<TickInput>)
    ensures RunFlags(f, inputs).exit == (f.exit || PressCount(inputs, Char('q')) > 0)
    ensures RunFlags(f, inputs).pause == (f.pause != (PressCount(inputs, Char(' ')) % 2 == 1))
  {
    if inputs != [] {
      RunFlagsCount(f, inputs[..|inputs| - 1]);
    }
  }

  /** Everything a tick can change: the flags, the panel, the simulated world, the
      simulation's id counter and the lines logged so far. */
  datatype EngineState = EngineState(flags: Flags, panel: Panel, world: World, idCounter: nat, history: seq<string>)

  /** The states the engine keeps between ticks: the selection on one of the three
      settings, speed, gravity and drag in their slots, and three massive bodies. */
  predicate Coherent(s: EngineState)
  {
    s.panel.selected < |s.panel.settings| && StoreShape(s.panel.settings)
    && |s.world.entities| == EntityCount && Massive(s.world.entities)
  }

  /** One tick as a transition of the engine state: a pending reset rebuilds the
      world and the id counter; unless paused the world advances under the settings
      as they were at the start of the tick and the update's lines are logged; the
      event then acts on the flags and the panel. */
  function TickStep(s: EngineState, input: TickInput, pull: PairForce): (r: EngineState)
    requires Coherent(s) && ValidDraws(input.draws)
    ensures Coherent(r)
    ensures r.flags == TickFlags(s.flags, input.event)
    ensures r.panel == PanelOn(s.panel, Pressed(input.event))
    ensures r.history == s.history + if s.flags.pause then [] else UpdateLog(EntityCount)
  {
    var w := if s.flags.reset then World(Spawned(input.draws), []) else s.world;
    var st := s.panel.settings;
    var g, time, drag := st[GravitySlot].g, st[SpeedSlot].steps as int as real, st[DragSlot].factor;
    AdvanceKeepsBodies(w, g, time, drag, pull);
    PanelKeepsShape(s.panel, Pressed(input.event));
    EngineState(TickFlags(s.flags, input.event),
                PanelOn(s.panel, Pressed(input.event)),
                if s.flags.pause then w else Advance(w, g, time, drag, pull),
                if s.flags.reset then EntityCount else s.idCounter,
                s.history + if s.flags.pause then [] else UpdateLog(EntityCount))
  }

  /** The engine state after ticks with these inputs. */
  function RunState(s: EngineState, inputs: seq<TickInput>, pull: PairForce): (r: EngineState)
    requires Coherent(s) && forall k :: 0 <= k < |inputs| ==> ValidDraws(inputs[k].draws)
    ensures Coherent(r)
    ensures r.flags == RunFlags(s.flags, inputs)
  {
    if inputs == [] then s
    else
      var prefix := inputs[..|inputs| - 1];
      assert forall k :: 0 <= k < |prefix| ==> prefix[k] == inputs[k];
      TickStep(RunState(s, prefix, pull), inputs[|inputs| - 1], pull)
  }

  /** The engine: the flags, the logger it shares with the simulation, the N-body
      simulation and the frame-rate figure shown in the log panel. */
  class Simulation {
    var exit: bool
    var reset: bool
    var pause: bool
    const logger: Logger
    const simulation: NBody
    var fps: nat

    ghost predicate Valid()
      reads this, simulation, simulation.panel, simulation.store, logger
    {
      simulation.logger == logger && simulation.Valid() && logger.Valid()
      && |simulation.entities| == EntityCount
    }

    function State(): Flags
      reads this
    {
      Flags(exit, reset, pause)
    }

    /** The part of the engine a tick can change. */
    ghost function EngineNow(): EngineState
      reads this, simulation, simulation.panel, simulation.store, logger
    {
      EngineState(State(), PanelState(), simulation.State(), simulation.idCounter, logger.history)
    }

    /** The shared settings and the panel's selection. */
    function PanelState(): Panel
      reads this, simulation, simulation.panel, simulation.store
    {
      Panel(simulation.store[..], simulation.panel.selected)
    }

    /** Start-up of the N-body scenario: speed 3, G = 100 and drag 0.99 in one
        settings array shared by the panel and the simulation, the first setting
        selected, three fresh bodies, an empty trail and log, paused, 60 fps. */
    constructor Init(draws: seq<Draw>)
      requires ValidDraws(draws)
      ensures Valid()
      ensures State() == Flags(false, false, true) && fps == 60
      ensures simulation.store[..] == InitialSettings && simulation.panel.selected == 0
      ensures simulation.State() == World(Spawned(draws), []) && simulation.idCounter == EntityCount
      ensures logger.history == [] && logger.logs == []
      ensures fresh(logger) && fresh(simulation) && fresh(simulation.panel) && fresh(simulation.store)
    {
      var store := new Setting[][Speed(3), Gravity(100.0), Drag(0.99)];
      assert store[..] == InitialSettings;
      var panel := new SettingsBlock(store);
      var log := new Logger();
      var nbody := new NBody(log, panel, draws);
      exit, reset, pause := false, false, true;
      logger := log;
      simulation := nbody;
      fps := 60;
    }

    /** Raises the exit flag; nothing else changes. */
    method Exit()
      modifies this`exit
      ensures exit
    {
      exit := true;
    }

    /** One pressed key: 'q', space and 'r' act on the flags, the arrows on the
        settings panel, and every other key goes to the simulation. A key changes
        exactly what its route names. */
    method HandleKeyEvent(key: KeyEvent)
      requires Valid()
      modifies this`exit, this`reset, this`pause, simulation.panel, simulation.store
      ensures Valid()
      ensures State() == OnKey(old(State()), key.code)
      ensures PanelState() == PanelAfter(old(PanelState()), key.code)
    {
      var panel := simulation.panel;
      match RouteOf(key.code)
      case Quit => Exit();
      case TogglePause => pause := !pause;
      case RequestReset => reset := true;
      case PanelLeft => panel.Left();
      case PanelRight => panel.Right();
      case PanelUp => panel.Up();
      case PanelDown => panel.Down();
      case ToSimulation => simulation.HandleKeyEvents(key);
    }

    /** The event read in a tick: only key presses are acted on. */
    method HandleEvents(ev: Event)
      requires Valid()
      modifies this`exit, this`reset, this`pause, simulation.panel, simulation.store
      ensures Valid()
      ensures State() == OnEvent(old(State()), Some(ev))
      ensures PanelState() == PanelOn(old(PanelState()), Pressed(Some(ev)))
    {
      match ev
      case Key(key) =>
        if key.kind == Press {
          HandleKeyEvent(key);
        }
      case OtherEvent =>
    }

    /** One pass of the main loop: a pending reset is carried out and cleared, the
        simulation is updated unless paused, and the event that arrived, if any, is
        handled. The update reads the settings as they were before the event. */
    method Tick(input: TickInput, pull: PairForce)
      requires Valid() && ValidDraws(input.draws)
      modifies this`exit, this`reset, this`pause, simulation, logger, simulation.panel, simulation.store
      ensures Valid()
      ensures State() == TickFlags(old(State()), input.event)
      ensures PanelState() == PanelOn(old(PanelState()), Pressed(input.event))
      ensures var w := if old(reset) then World(Spawned(input.draws), []) else old(simulation.State());
              simulation.State()
                == if old(pause) then w
                   else Advance(w, old(simulation.GravityValue()), old(simulation.TimeValue()),
                                old(simulation.DragValue()), pull)
      ensures simulation.idCounter == if old(reset) then EntityCount else old(simulation.idCounter)
      ensures logger.history == old(logger.history) + if old(pause) then [] else UpdateLog(EntityCount)
    {
      ghost var f, p := State(), PanelState();
      ResetAndUpdate(input.draws, pull);
      assert State() == f.(reset := false) && PanelState() == p;
      ghost var w, n, h := simulation.State(), simulation.idCounter, logger.history;
      HandleTickEvent(input.event);
      assert simulation.State() == w && simulation.idCounter == n && logger.history == h;
    }

    /** The end of a tick: the event that arrived, if it is a key press, acts on the
        flags and on the panel. */
    method HandleTickEvent(event: Option<Event>)
      requires Valid()
      modifies this`exit, this`reset, this`pause, simulation.panel, simulation.store
      ensures Valid()
      ensures State() == OnEvent(old(State()), event)
      ensures PanelState() == PanelOn(old(PanelState()), Pressed(event))
    {
      if event.Some? {
        HandleEvents(event.value);
      }
    }

    /** The simulation's part of a tick: a pending reset, then an update unless
        paused. */
    method ResetAndUpdate(draws: seq<Draw>, pull: PairForce)
      requires Valid() && ValidDraws(draws)
      modifies this`reset, simulation, logger
      ensures Valid() && !reset
      ensures var w := if old(reset) then World(Spawned(draws), []) else old(simulation.State());
              simulation.State()
                == if pause then w
                   else Advance(w, simulation.GravityValue(), simulation.TimeValue(), simulation.DragValue(), pull)
      ensures simulation.idCounter == if old(reset) then EntityCount else old(simulation.idCounter)
      ensures logger.history == old(logger.history) + if pause then [] else UpdateLog(EntityCount)
    {
      ResetIfPending(draws);
      UpdateUnlessPaused(pull);
    }

    /** The start of a tick: a pending reset rebuilds the scenario and is cleared. */
    method ResetIfPending(draws: seq<Draw>)
      requires Valid() && ValidDraws(draws)
      modifies this`reset, simulation
      ensures Valid() && !reset
      ensures simulation.State() == if old(reset) then World(Spawned(draws), []) else old(simulation.State())
      ensures simulation.idCounter == if old(reset) then EntityCount else old(simulation.idCounter)
    {
      if reset {
        simulation.Reset(draws);
        reset := false;
      }
    }

    /** The simulation advances one step exactly when the engine is not paused. */
    method UpdateUnlessPaused(pull: PairForce)
      requires Valid()
      modifies simulation`entities, simulation`trail, logger
      ensures Valid()
      ensures simulation.State()
                == if pause then old(simulation.State())
                   else Advance(old(simulation.State()), simulation.GravityValue(), simulation.TimeValue(),
                                simulation.DragValue(), pull)
      ensures logger.history == old(logger.history) + if pause then [] else UpdateLog(EntityCount)
    {
      if !pause {
        ghost var w := simulation.State();
        simulation.Update(pull);
        AdvanceKeepsBodies(w, simulation.GravityValue(), simulation.TimeValue(), simulation.DragValue(), pull);
      }
    }

    /** The main loop, `while !exit`: one tick per input until exit is raised or the
        inputs run out. Returns the number of ticks run. */
    method Run(inputs: seq<TickInput>, pull: PairForce) returns (ticks: nat)
      requires Valid()
      requires forall k :: 0 <= k < |inputs| ==> ValidDraws(inputs[k].draws)
      modifies this`exit, this`reset, this`pause, simulation, logger, simulation.panel, simulation.store
      ensures Valid()
      ensures ticks <= |inputs| && ticks == Ticks(old(State()), inputs)
      ensures State() == RunFlags(old(State()), inputs[..ticks])
      ensures EngineNow() == RunState(old(EngineNow()), inputs[..ticks], pull)
    {
      ticks := 0;
      while !exit && ticks < |inputs|
        invariant Valid() && ticks <= |inputs|
        invariant EngineNow() == RunState(old(EngineNow()), inputs[..ticks], pull)
        invariant Ticks(old(State()), inputs) == ticks + Ticks(State(), inputs[ticks..])
        decreases |inputs| - ticks
      {
        assert inputs[ticks..][1..] == inputs[ticks + 1..];
        assert inputs[..ticks + 1][..ticks] == inputs[..ticks];
        ghost var before := EngineNow();
        Tick(inputs[ticks], pull);
        assert EngineNow() == TickStep(before, inputs[ticks], pull);
        ticks := ticks + 1;
      }
    }
  }
}
