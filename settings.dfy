/** Live-tunable simulation settings and the panel that navigates and adjusts them.
    The settings live in one array; the panel and the N-body simulation both hold
    that same array, so a value adjusted through the panel is the value the next
    physics step reads. */
module Settings {
  import opened Decimal

  /** Rust's `i64`. */
  newtype i64 = x: int | -0x8000_0000_0000_0000 <= x < 0x8000_0000_0000_0000

  const I64Min: i64 := -0x8000_0000_0000_0000
  const I64Max: i64 := 0x7FFF_FFFF_FFFF_FFFF

  /** An integer reduced into the `i64` range modulo 2^64, as two's-complement
      arithmetic does. */
  function Wrap(x: int): (r: i64)
    ensures (r as int - x) % 0x1_0000_0000_0000_0000 == 0
  {
    ((x + 0x8000_0000_0000_0000) % 0x1_0000_0000_0000_0000 - 0x8000_0000_0000_0000) as i64
  }

  /** The three settings of the N-body scenario: the integer time step per update,
      the gravitational constant and the per-step velocity drag factor. */
  datatype Setting = Speed(steps: i64) | Gravity(g: real) | Drag(factor: real)
  {
    /** The panel label: a name followed by a colon. */
    function Text(): (r: string)
      ensures |r| >= 2 && r[|r| - 1] == ':'
    {
      match this
      case Speed(_) => "Speed:"
      case Gravity(_) => "Force (G):"
      case Drag(_) => "Drag:"
    }

    /** Speed one step up (two's-complement wrap at the top), gravity ten times
        stronger, drag one hundredth higher. The kind of setting never changes. */
    function Increment(): (r: Setting)
      ensures r.Speed? == Speed? && r.Gravity? == Gravity? && r.Drag? == Drag?
      ensures Speed? ==> r.steps == Wrap(steps as int + 1)
    {
      match this
      case Speed(n) => Speed(if n == I64Max then I64Min else n + 1)
      case Gravity(g) => Gravity(g * 10.0)
      case Drag(d) => Drag(d + 0.01)
    }

    /** Speed one step down (wrapping at the bottom), gravity a tenth, drag one
        hundredth lower. The kind of setting never changes. */
    function Decrement(): (r: Setting)
      ensures r.Speed? == Speed? && r.Gravity? == Gravity? && r.Drag? == Drag?
      ensures Speed? ==> r.steps == Wrap(steps as int - 1)
    {
      match this
      case Speed(n) => Speed(if n == I64Min then I64Max else n - 1)
      case Gravity(g) => Gravity(g * 0.1)
      case Drag(d) => Drag(d - 0.01)
    }
  }

  /** The label tells the kind of a setting: two settings have the same label
      exactly when they are of the same kind. */
  lemma TextNamesKind(s: Setting, t: Setting)
    ensures s.Text() == t.Text() <==> (s.Speed? == t.Speed? && s.Gravity? == t.Gravity? && s.Drag? == t.Drag?)
  {
    assert s.Text()[0] == t.Text()[0] ==> (s.Speed? == t.Speed? && s.Gravity? == t.Gravity? && s.Drag? == t.Drag?);
  }

  /** The Speed setting's displayed value: its integer in decimal, from which the
      integer can be read back. */
  function SpeedValue(n: i64): (s: string)
    ensures CanonicalInt(s) && ParseInt(s) == n as int
  {
    IntRoundTrip(n as int);
    IntToString(n as int)
  }

  /** On the integer Speed setting one increment and one decrement undo each other,
      in either order, at the wrap-around points too. */
  lemma SpeedStepsInverse(s: Setting)
    requires s.Speed?
    ensures s.Increment().Decrement() == s
    ensures s.Decrement().Increment() == s
  {
  }

  /** `k` increments, one after the other. */
  function Increments(s: Setting, k: nat): Setting
  {
    if k == 0 then s else Increments(s, k - 1).Increment()
  }

  /** `k` decrements, one after the other. */
  function Decrements(s: Setting, k: nat): Setting
    decreases k
  {
    if k == 0 then s else Decrements(s.Decrement(), k - 1)
  }

  /** Pressing right `k` times and then left `k` times on the Speed setting restores
      its value exactly. */
  lemma {:induction false} SpeedRoundTrip(s: Setting, k: nat)
    requires s.Speed?
    ensures Decrements(Increments(s, k), k) == s
  {
    if k > 0 {
      var u := Increments(s, k - 1);
      assert u.Speed? by { IncrementsKeepKind(s, k - 1); }
      SpeedStepsInverse(u);
      calc {
        Decrements(Increments(s, k), k);
        Decrements(u.Increment().Decrement(), k - 1);
        Decrements(u, k - 1);
        { SpeedRoundTrip(s, k - 1); }
        s;
      }
    }
  }

  /** Increments never change the kind of a setting. */
  lemma {:induction false} IncrementsKeepKind(s: Setting, k: nat)
    ensures Increments(s, k).Speed? == s.Speed?
    ensures Increments(s, k).Gravity? == s.Gravity?
    ensures Increments(s, k).Drag? == s.Drag?
  {
    if k > 0 {
      IncrementsKeepKind(s, k - 1);
    }
  }

  /** The selection after moving up: one earlier, clamped at the first entry. */
  function MoveUp(sel: nat): nat
  {
    if sel != 0 then sel - 1 else sel
  }

  /** The selection after moving down: one later while not on the last entry. */
  function MoveDown(sel: nat, len: nat): nat
  {
    if sel + 1 < len then sel + 1 else sel
  }

  datatype Move = MoveUpKey | MoveDownKey

  /** The selection after a series of up and down moves. */
  function Navigate(sel: nat, len: nat, moves: seq<Move>): nat
    decreases moves
  {
    if moves == [] then sel
    else
      var next := if moves[0] == MoveUpKey then MoveUp(sel) else MoveDown(sel, len);
      Navigate(next, len, moves[1..])
  }

  /** Whatever the moves, a selection that starts on an entry stays on an entry. */
  lemma {:induction false} NavigateStaysInRange(sel: nat, len: nat, moves: seq<Move>)
    requires sel < len
    ensures Navigate(sel, len, moves) < len
    decreases moves
  {
    if moves != [] {
      var next := if moves[0] == MoveUpKey then MoveUp(sel) else MoveDown(sel, len);
      NavigateStaysInRange(next, len, moves[1..]);
    }
  }

  /** The settings panel: the shared settings array and one selected index. */
  class SettingsBlock {
    const settings: array<Setting>
    var selected: nat

    ghost predicate Valid()
      reads this
    {
      selected < settings.Length
    }

    constructor (settings: array<Setting>)
      requires settings.Length > 0
      ensures Valid()
      ensures this.settings == settings && selected == 0
    {
      this.settings := settings;
      selected := 0;
    }

    /** Selects the previous entry, staying on the first. */
    method Up()
      requires Valid()
      modifies this
      ensures Valid()
      ensures selected == MoveUp(old(selected))
    {
      if selected != 0 {
        selected := selected - 1;
      }
    }

    /** Selects the next entry, staying on the last. A panel with no entries cannot
        be valid: the bound `len() - 1` would underflow. */
    method Down()
      requires Valid()
      modifies this
      ensures Valid()
      ensures selected == MoveDown(old(selected), settings.Length)
    {
      if selected < settings.Length - 1 {
        selected := selected + 1;
      }
    }

    /** Decrements the selected setting; every other setting and the selection stay. */
    method Left()
      requires Valid()
      modifies settings
      ensures settings[..] == old(settings[..])[selected := old(settings[selected]).Decrement()]
    {
      settings[selected] := settings[selected].Decrement();
    }

    /** Increments the selected setting; every other setting and the selection stay. */
    method Right()
      requires Valid()
      modifies settings
      ensures settings[..] == old(settings[..])[selected := old(settings[selected]).Increment()]
    {
      settings[selected] := settings[selected].Increment();
    }
  }
}
