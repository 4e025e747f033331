// The player's ship of xoi.py: pending horizontal move with wraparound at
// the field's edges, a fire toggle, and cyclic selection over its weapons,
// whose selected member it ticks and fires every update.

module Ships {
  import opened Utils
  import opened Weapons

  /** The ship's sprite is a 3 x 3 grid. */
  const ImageWidth := 3
  const ImageHeight := 3

  function Image(): seq<seq<char>>
  {
    [[' ', 'O', ' '], ['/', 'H', '\\'], [' ', '*', ' ']]
  }

  /** The column at which a move to the right wraps around. */
  function RightEdge(borderX: int): int
  {
    borderX - ImageWidth - 1
  }

  /** The column after one update with pending move dx: at the right edge a
      move right restarts from column 0, at column 1 a move left restarts
      from borderX - ImageWidth; then dx is added. */
  function Wrap(x: int, dx: int, borderX: int): (r: int)
    ensures dx == 0 ==> r == x
    ensures r == x + dx || r == dx || r == RightEdge(borderX) + 1 + dx
  {
    var start :=
      if x == RightEdge(borderX) && dx > 0 then 0
      else if x == 1 && dx < 0 then borderX - ImageWidth
      else x;
    start + dx
  }

  function NextIndex(i: nat, n: nat): (r: nat)
    requires i < n
    ensures r < n
  {
    if i < n - 1 then i + 1 else 0
  }

  function PrevIndex(i: nat, n: nat): (r: nat)
    requires i < n
    ensures r < n
  {
    if i == 0 then n - 1 else i - 1
  }

  /** Python's list.index on objects without __eq__: the first position
      holding that very object. */
  function IndexOf(ws: seq<Weapon>, w: Weapon): (r: nat)
    requires w in ws
    ensures r < |ws| && ws[r] == w
    ensures forall j :: 0 <= j < r ==> ws[j] != w
  {
    if ws[0] == w then 0 else 1 + IndexOf(ws[1..], w)
  }

  /** No weapon object appears twice. */
  ghost predicate Distinct(ws: seq<Weapon>)
  {
    forall i, j :: 0 <= i < j < |ws| ==> ws[i] != ws[j]
  }

  class Spaceship {
    const border: Point
    const weapons: seq<Weapon>
    const maxHull: int
    const maxShield: int
    const hull: int
    const shield: int

    var pos: Point
    var dx: int
    var fire: bool
    var selected: nat

    ghost predicate Valid()
      reads this
    {
      && |weapons| > 0 && selected < |weapons| && Distinct(weapons) && -1 <= dx <= 1
      && 0 <= hull <= maxHull && 0 <= shield <= maxShield
    }

    /** A ship centred at the bottom of the field, with the first weapon
        selected, not firing, and a pending move of +1. */
    constructor (border: Point, weapons: seq<Weapon>)
      requires |weapons| > 0 && Distinct(weapons)
      ensures Valid()
      ensures this.border == border && this.weapons == weapons
      ensures pos == Point(border.x / 2 - ImageWidth / 2, border.y - ImageHeight)
      ensures dx == 1 && !fire && selected == 0
      ensures maxHull == 100 && maxShield == 100 && hull == 100 && shield == 100
    {
      this.border := border;
      this.weapons := weapons;
      pos := Point(border.x / 2 - ImageWidth / 2, border.y - ImageHeight);
      dx := 1;
      fire := false;
      selected := 0;
      maxHull, maxShield, hull, shield := 100, 100, 100, 100;
    }

    method MoveLeft()
      requires Valid()
      modifies this`dx
      ensures Valid() && dx == -1
    {
      dx := -1;
    }

    method MoveRight()
      requires Valid()
      modifies this`dx
      ensures Valid() && dx == 1
    {
      dx := 1;
    }

    method ToggleFire()
      requires Valid()
      modifies this`fire
      ensures Valid() && fire == !old(fire)
    {
      fire := !fire;
    }

    method NextWeapon()
      requires Valid()
      modifies this`selected
      ensures Valid() && selected == NextIndex(old(selected), |weapons|)
    {
      var ind := IndexOf(weapons, weapons[selected]);
      assert ind == selected;
      if ind < |weapons| - 1 {
        selected := ind + 1;
      } else {
        selected := 0;
      }
    }

    method PrevWeapon()
      requires Valid()
      modifies this`selected
      ensures Valid() && selected == PrevIndex(old(selected), |weapons|)
    {
      var ind := IndexOf(weapons, weapons[selected]);
      assert ind == selected;
      if ind == 0 {
        selected := |weapons| - 1;
      } else {
        selected := ind - 1;
      }
    }

    /** One tick: move with wraparound, clear the pending move, tick the
        selected weapon, and if firing shoot from (x + 1, y), switching to
        the next weapon when the shot reports exhaustion. No other weapon
        is touched. */
    method Update()
      requires Valid()
      modifies this`pos, this`dx, this`selected, weapons[selected]
      ensures Valid()
      ensures pos == Point(Wrap(old(pos.x), old(dx), border.x), old(pos.y))
      ensures dx == 0
      ensures var w := weapons[old(selected)];
        var ticked := Tick(w.dy, old(w.State()));
        if fire then
          var shot := Fire(w.cooldown, ticked, Point(pos.x + 1, pos.y));
          w.State() == shot.after
          && selected == (if shot.outcome == Exhausted then NextIndex(old(selected), |weapons|)
                          else old(selected))
        else
          w.State() == ticked && selected == old(selected)
      ensures forall i :: 0 <= i < |weapons| && i != old(selected) ==>
        weapons[i].State() == old(weapons[i].State())
    {
      var x := pos.x;
      if x == RightEdge(border.x) && dx > 0 {
        x := 0;
      } else if x == 1 && dx < 0 {
        x := border.x - ImageWidth;
      }
      pos := pos.(x := x + dx);
      dx := 0;

      var w := weapons[selected];
      w.Update();
      if fire {
        var outcome := w.MakeShot(Point(pos.x + 1, pos.y));
        if outcome == Exhausted {
          NextWeapon();
        }
      }
    }

    /** get_damage_max: the full hull and shield. */
    function DamageMax(): (r: (int, int))
      reads this
      requires Valid()
      ensures r.0 >= 0 && r.1 >= 0
    {
      (maxHull, maxShield)
    }

    /** get_damage_info: the current hull and shield, each between 0 and
        its maximum. */
    function DamageInfo(): (r: (int, int))
      reads this
      requires Valid()
      ensures 0 <= r.0 <= DamageMax().0 && 0 <= r.1 <= DamageMax().1
    {
      (hull, shield)
    }

    /** get_render_data: the position and the 3 x 3 sprite whose width the
        wraparound allows for. */
    function GetRenderData(): (r: (Point, seq<seq<char>>))
      reads this
      ensures r.0 == pos && |r.1| == ImageHeight
      ensures forall i :: 0 <= i < |r.1| ==> |r.1[i]| == ImageWidth
    {
      (pos, Image())
    }
  }
}
