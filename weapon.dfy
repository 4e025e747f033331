// The weapon state machine of weapon.py: ammo parsing and display, the
// effect of one shot, the per-tick update, and the Weapon object itself.

module Weapons {
  import opened Utils

  /** The weapon variants (the subclasses Blaster, Laser and UM). */
  datatype Kind = Blaster | Laser | UM

  /** The class name that the `type` property reports. */
  function TypeName(k: Kind): (r: string)
    ensures r in {"Blaster", "Laser", "UM"}
  {
    match k
    case Blaster => "Blaster"
    case Laser => "Laser"
    case UM => "UM"
  }

  /** Different variants report different names, so the name identifies the variant. */
  lemma TypeNameIdentifiesKind(k1: Kind, k2: Kind)
    ensures TypeName(k1) == TypeName(k2) <==> k1 == k2
  {
  }

  /** The glyph grid each variant draws for one projectile. */
  function Glyph(k: Kind): (g: seq<seq<char>>)
    ensures |g| == (if k == UM then 3 else 1)
    ensures forall i :: 0 <= i < |g| ==> |g[i]| == 1
  {
    match k
    case Blaster => ["^"]
    case Laser => ["|"]
    case UM => ["^", "|", "*"]
  }

  /** An ammo pool: a finite count, or the "infinite" marker. */
  datatype Ammo = Finite(n: nat) | Infinite

  /** Value shown for an infinite pool by the `ammo` and `max_ammo` properties. */
  const InfiniteDisplay := 999

  // ---------------------------------------------------------------------
  // Parsing ammo configuration text: digits become a count, "infinite" stays
  // a marker.

  predicate IsDigit(c: char) { '0' as int <= c as int <= '9' as int }

  /** Python's str.isdigit restricted to ASCII: non-empty and all digits. */
  predicate IsDigits(s: string)
  {
    |s| > 0 && forall i :: 0 <= i < |s| ==> IsDigit(s[i])
  }

  /** The value of a decimal numeral (Python's int on a digit string). */
  function DigitsValue(s: string): nat
    requires forall i :: 0 <= i < |s| ==> IsDigit(s[i])
  {
    if |s| == 0 then 0
    else
      assert IsDigit(s[|s| - 1]);
      DigitsValue(s[..|s| - 1]) * 10 + (s[|s| - 1] as int - '0' as int)
  }

  function ParseAmmo(s: string): Option<Ammo>
  {
    if IsDigits(s) then Some(Finite(DigitsValue(s)))
    else if s == "infinite" then Some(Infinite)
    else None
  }

  function DigitChar(d: nat): char
    requires d < 10
  {
    ('0' as int + d) as char
  }

  /** The decimal numeral of a count, without leading zeros. */
  function ShowNat(n: nat): string
  {
    if n < 10 then [DigitChar(n)] else ShowNat(n / 10) + [DigitChar(n % 10)]
  }

  /** The configuration text of an ammo pool. */
  function ShowAmmo(a: Ammo): string
  {
    match a
    case Finite(n) => ShowNat(n)
    case Infinite => "infinite"
  }

  lemma {:induction false} ShowNatIsDigits(n: nat)
    ensures IsDigits(ShowNat(n))
    ensures DigitsValue(ShowNat(n)) == n
  {
    if n >= 10 {
      ShowNatIsDigits(n / 10);
      var s := ShowNat(n);
      assert s[..|s| - 1] == ShowNat(n / 10);
    }
  }

  /** Parsing the text of a pool gives back the pool. */
  lemma ParseShowAmmo(a: Ammo)
    ensures ParseAmmo(ShowAmmo(a)) == Some(a)
  {
    match a
    case Finite(n) => ShowNatIsDigits(n);
    case Infinite => assert !IsDigit("infinite"[0]);
  }

  /** The number the `ammo` / `max_ammo` properties report for a pool. */
  function Displayed(a: Ammo): (r: nat)
    ensures a.Finite? ==> r == a.n
    ensures a.Infinite? ==> r == InfiniteDisplay
  {
    match a
    case Finite(n) => n
    case Infinite => InfiniteDisplay
  }

  // ---------------------------------------------------------------------
  // The state that changes, and the two transitions that change it.

  /** What a call of make_shot reports: nothing happened, a shot was fired,
      or the pool is (now) empty -- the ValueError of the source. */
  datatype Outcome = Ignored | Fired | Exhausted

  /** The mutable part of a weapon. */
  datatype WeaponState = WeaponState(ammo: Ammo, currentCooldown: int, ready: bool, coords: seq<Point>)

  /** State after a shot, together with its outcome. */
  datatype Shot = Shot(after: WeaponState, outcome: Outcome)

  /** The projectile spawned by a shot from `origin`: one row above it. */
  function Projectile(origin: Point): Point
  {
    Point(origin.x, origin.y - 1)
  }

  /** One make_shot from `origin` by a weapon whose cooldown is `cooldown`.
      The exhaustion check comes before `ready` and the countdown are set. */
  function Fire(cooldown: int, s: WeaponState, origin: Point): (r: Shot)
    ensures r.outcome == Ignored <==> !s.ready
    ensures r.outcome == Exhausted <==> s.ready && r.after.ammo == Finite(0)
    ensures r.outcome == Fired ==> !r.after.ready && r.after.currentCooldown == cooldown
    ensures r.outcome != Fired ==> r.after.ready == s.ready && r.after.currentCooldown == s.currentCooldown
  {
    if !s.ready then Shot(s, Ignored)
    else
      var loaded :=
        match s.ammo
        case Infinite => s.(coords := s.coords + [Projectile(origin)])
        case Finite(n) =>
          if n > 0 then s.(coords := s.coords + [Projectile(origin)], ammo := Finite(n - 1))
          else s;
      if loaded.ammo == Finite(0) then Shot(loaded, Exhausted)
      else Shot(loaded.(ready := false, currentCooldown := cooldown), Fired)
  }

  /** A projectile survives a tick iff it is still below row 0 after moving. */
  predicate Survives(p: Point, dy: int)
  {
    p.y - dy > 0
  }

  function Moved(p: Point, dy: int): Point
  {
    Point(p.x, p.y - dy)
  }

  /** The projectiles after one tick: survivors moved up by dy, in order. */
  function Advanced(cs: seq<Point>, dy: int): (r: seq<Point>)
    ensures |r| <= |cs|
  {
    if cs == [] then []
    else (if Survives(cs[0], dy) then [Moved(cs[0], dy)] else []) + Advanced(cs[1..], dy)
  }

  /** One call of update: the projectiles advance and the countdown ticks. */
  function Tick(dy: int, s: WeaponState): (r: WeaponState)
    ensures r.ammo == s.ammo && r.currentCooldown < s.currentCooldown
    ensures s.ready ==> r.ready
    ensures |r.coords| <= |s.coords|
  {
    s.(coords := Advanced(s.coords, dy),
       currentCooldown := s.currentCooldown - 1,
       ready := s.ready || s.currentCooldown - 1 <= 0)
  }

  /** Advancing a list one projectile longer adds that projectile's fate at the end. */
  lemma {:induction false} AdvancedSnoc(cs: seq<Point>, p: Point, dy: int)
    ensures Advanced(cs + [p], dy)
         == Advanced(cs, dy) + (if Survives(p, dy) then [Moved(p, dy)] else [])
  {
    if cs == [] {
      assert [] + [p] == [p];
    } else {
      assert (cs + [p])[1..] == cs[1..] + [p];
      AdvancedSnoc(cs[1..], p, dy);
    }
  }

  // ---------------------------------------------------------------------
  // The weapon object.

  class Weapon {
    const kind: Kind
    const maxAmmo: Ammo
    const cooldown: int
    const damage: int
    const radius: int
    const dy: int

    var ammo: Ammo
    var currentCooldown: int
    var ready: bool
    var coords: seq<Point>

    function State(): WeaponState
      reads this
    {
      WeaponState(ammo, currentCooldown, ready, coords)
    }

    /** A fresh weapon from its configuration values: ready, no countdown,
        no projectiles. */
    constructor (kind: Kind, ammoText: string, maxAmmoText: string,
                 cooldown: int, damage: int, radius: int, dy: int)
      requires ParseAmmo(ammoText).Some? && ParseAmmo(maxAmmoText).Some?
      ensures this.kind == kind && maxAmmo == ParseAmmo(maxAmmoText).value
      ensures this.cooldown == cooldown && this.damage == damage
      ensures this.radius == radius && this.dy == dy
      ensures State() == WeaponState(ParseAmmo(ammoText).value, 0, true, [])
    {
      this.kind := kind;
      ammo := ParseAmmo(ammoText).value;
      maxAmmo := ParseAmmo(maxAmmoText).value;
      this.cooldown := cooldown;
      this.damage := damage;
      this.radius := radius;
      this.dy := dy;
      currentCooldown := 0;
      ready := true;
      coords := [];
    }

    /** Marks the weapon ready again, touching nothing else. */
    method PrepareWeapon()
      modifies this`ready
      ensures State() == old(State()).(ready := true)
    {
      ready := true;
    }

    method MakeShot(pos: Point) returns (outcome: Outcome)
      modifies this
      ensures Fire(cooldown, old(State()), pos) == Shot(State(), outcome)
    {
      if !ready {
        return Ignored;
      }
      match ammo {
        case Infinite =>
          coords := coords + [Projectile(pos)];
        case Finite(n) =>
          if n > 0 {
            coords := coords + [Projectile(pos)];
            ammo := Finite(n - 1);
          }
      }
      if ammo == Finite(0) {
        return Exhausted;
      }
      ready := false;
      currentCooldown := cooldown;
      outcome := Fired;
    }

    method Update()
      modifies this
      ensures State() == Tick(dy, old(State()))
    {
      var next: seq<Point> := [];
      var i := 0;
      while i < |coords|
        invariant 0 <= i <= |coords|
        invariant next == Advanced(coords[..i], dy)
        invariant unchanged(this)
      {
        var p := coords[i];
        if p.y - dy > 0 {
          next := next + [Point(p.x, p.y - dy)];
        }
        AdvancedSnoc(coords[..i], p, dy);
        assert coords[..i + 1] == coords[..i] + [p];
        i := i + 1;
      }
      assert coords[..i] == coords;
      coords := next;
      currentCooldown := currentCooldown - 1;
      if currentCooldown <= 0 {
        ready := true;
      }
    }

    /** The `ammo` property. */
    function DisplayedAmmo(): (r: nat)
      reads this
      ensures ammo.Infinite? ==> r == InfiniteDisplay
      ensures ammo.Finite? ==> r == ammo.n
    {
      Displayed(ammo)
    }

    /** The `max_ammo` property. */
    function DisplayedMaxAmmo(): (r: nat)
      ensures maxAmmo.Infinite? ==> r == InfiniteDisplay
      ensures maxAmmo.Finite? ==> r == maxAmmo.n
    {
      Displayed(maxAmmo)
    }

    /** The `type` property. */
    function Type(): (r: string)
      ensures r == "Blaster" <==> kind == Blaster
      ensures r == "Laser" <==> kind == Laser
      ensures r == "UM" <==> kind == UM
    {
      TypeName(kind)
    }

    /** get_render_data: the projectiles and the variant's glyph. */
    function GetRenderData(): (r: (seq<Point>, seq<seq<char>>))
      reads this
      ensures r.0 == coords && r.1 == Glyph(kind)
    {
      (coords, Glyph(kind))
    }
  }
}
