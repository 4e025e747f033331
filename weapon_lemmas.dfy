// Properties of the weapon state machine: what one shot does in each case,
// what one tick does, and what happens over sequences of shots and ticks.

module WeaponLemmas {
  import opened Utils
  import opened Weapons

  // ---------------------------------------------------------------------
  // One shot.

  /** A weapon that is not ready ignores the shot and changes nothing. */
  lemma FireWhenNotReady(c: int, s: WeaponState, o: Point)
    requires !s.ready
    ensures Fire(c, s, o) == Shot(s, Ignored)
  {
  }

  /** Infinite ammo: one projectile above the origin, the pool unchanged,
      the weapon goes on cooldown, and no exhaustion. */
  lemma FireInfinite(c: int, s: WeaponState, o: Point)
    requires s.ready && s.ammo == Infinite
    ensures Fire(c, s, o).outcome == Fired
    ensures Fire(c, s, o).after
         == WeaponState(Infinite, c, false, s.coords + [Point(o.x, o.y - 1)])
  {
  }

  /** More than one round left: one projectile, one round spent, cooldown set. */
  lemma FireFinite(c: int, s: WeaponState, o: Point)
    requires s.ready && s.ammo.Finite? && s.ammo.n > 1
    ensures Fire(c, s, o).outcome == Fired
    ensures Fire(c, s, o).after
         == WeaponState(Finite(s.ammo.n - 1), c, false, s.coords + [Point(o.x, o.y - 1)])
  {
  }

  /** The last round is still fired, but exhaustion is reported and the
      weapon stays ready with its countdown untouched. */
  lemma FireLastRound(c: int, s: WeaponState, o: Point)
    requires s.ready && s.ammo == Finite(1)
    ensures Fire(c, s, o).outcome == Exhausted
    ensures Fire(c, s, o).after
         == s.(ammo := Finite(0), coords := s.coords + [Point(o.x, o.y - 1)])
  {
  }

  /** An empty but ready weapon fires nothing and reports exhaustion again. */
  lemma FireEmpty(c: int, s: WeaponState, o: Point)
    requires s.ready && s.ammo == Finite(0)
    ensures Fire(c, s, o) == Shot(s, Exhausted)
  {
  }

  /** A shot appends at most one projectile and spends at most one round;
      a finite pool stays finite (and, being a nat, never negative), an
      infinite one stays infinite. */
  lemma FireSpendsAtMostOne(c: int, s: WeaponState, o: Point)
    ensures var t := Fire(c, s, o).after;
      |t.coords| - |s.coords| == (if ShotAppends(s) then 1 else 0)
      && t.coords[..|s.coords|] == s.coords
      && (s.ammo.Infinite? ==> t.ammo == Infinite)
      && (s.ammo.Finite? ==> t.ammo == Finite(if ShotAppends(s) then s.ammo.n - 1 else s.ammo.n))
  {
  }

  /** Whether a shot from state s places a projectile. */
  predicate ShotAppends(s: WeaponState)
  {
    s.ready && (s.ammo.Infinite? || s.ammo.n > 0)
  }

  // ---------------------------------------------------------------------
  // One tick.

  /** The countdown drops by exactly one; the weapon becomes ready when it
      reaches zero or below, and a tick never makes it unready. */
  lemma TickCountdown(dy: int, s: WeaponState)
    ensures Tick(dy, s).currentCooldown == s.currentCooldown - 1
    ensures Tick(dy, s).ready <==> s.ready || s.currentCooldown <= 1
    ensures Tick(dy, s).ammo == s.ammo
  {
  }

  /** The indices of the projectiles that survive a tick, in increasing order. */
  function KeptIndices(cs: seq<Point>, dy: int): seq<nat>
  {
    if cs == [] then []
    else KeptIndices(cs[..|cs| - 1], dy)
         + (if Survives(cs[|cs| - 1], dy) then [|cs| - 1] else [])
  }

  /** The projectiles after a tick are exactly the survivors -- those with
      y - dy > 0 -- each moved up by dy with x kept, in their original order. */
  lemma {:induction false} AdvancedKeepsSurvivorsInOrder(cs: seq<Point>, dy: int)
    ensures var idx, r := KeptIndices(cs, dy), Advanced(cs, dy);
      |idx| == |r|
      && (forall k :: 0 <= k < |idx| ==> idx[k] < |cs| && r[k] == Moved(cs[idx[k]], dy))
      && (forall k, l :: 0 <= k < l < |idx| ==> idx[k] < idx[l])
      && (forall i :: 0 <= i < |cs| ==> (Survives(cs[i], dy) <==> i in idx))
  {
    if cs != [] {
      var init, p := cs[..|cs| - 1], cs[|cs| - 1];
      assert cs == init + [p];
      AdvancedKeepsSurvivorsInOrder(init, dy);
      AdvancedSnoc(init, p, dy);
      var idx0 := KeptIndices(init, dy);
      var idx := KeptIndices(cs, dy);
      assert idx == idx0 + (if Survives(p, dy) then [|cs| - 1] else []);
      forall i | 0 <= i < |cs|
        ensures Survives(cs[i], dy) <==> i in idx
      {
        if i < |init| {
          assert cs[i] == init[i];
          assert i in idx0 <==> i in idx;
        }
      }
    }
  }

  // ---------------------------------------------------------------------
  // Several ticks.

  function TickN(dy: int, s: WeaponState, k: nat): WeaponState
  {
    if k == 0 then s else Tick(dy, TickN(dy, s, k - 1))
  }

  lemma {:induction false} TickNCountdown(dy: int, s: WeaponState, k: nat)
    ensures TickN(dy, s, k).currentCooldown == s.currentCooldown - k
    ensures TickN(dy, s, k).ready <==> s.ready || (k >= 1 && s.currentCooldown - k <= 0)
    ensures TickN(dy, s, k).ammo == s.ammo
  {
    if k > 0 {
      TickNCountdown(dy, s, k - 1);
    }
  }

  /** After a shot that fired, the weapon is ready again after exactly
      max(cooldown, 1) ticks, and not before. */
  lemma ReadyAgainAfterCooldown(c: int, dy: int, s: WeaponState, o: Point, k: nat)
    requires Fire(c, s, o).outcome == Fired
    ensures TickN(dy, Fire(c, s, o).after, k).ready <==> k >= 1 && k >= c
  {
    TickNCountdown(dy, Fire(c, s, o).after, k);
  }

  // ---------------------------------------------------------------------
  // Arbitrary sequences of shots and ticks.

  datatype Op = Shoot(origin: Point) | Update

  /** The state after a run of operations, the outcomes of its shots in
      order, and how many projectiles those shots placed. */
  datatype Trace = Trace(last: WeaponState, outcomes: seq<Outcome>, shots: nat)

  function Run(c: int, dy: int, s: WeaponState, ops: seq<Op>): Trace
    decreases ops
  {
    if ops == [] then Trace(s, [], 0)
    else match ops[0]
      case Update => Run(c, dy, Tick(dy, s), ops[1..])
      case Shoot(o) =>
        var shot := Fire(c, s, o);
        var rest := Run(c, dy, shot.after, ops[1..]);
        Trace(rest.last, [shot.outcome] + rest.outcomes,
              rest.shots + if ShotAppends(s) then 1 else 0)
  }

  /** Infinite ammo is never exhausted, however the weapon is used. */
  lemma {:induction false} InfiniteNeverExhausts(c: int, dy: int, s: WeaponState, ops: seq<Op>)
    requires s.ammo == Infinite
    ensures Exhausted !in Run(c, dy, s, ops).outcomes
    ensures Run(c, dy, s, ops).last.ammo == Infinite
    decreases ops
  {
    if ops != [] {
      match ops[0]
      case Update => InfiniteNeverExhausts(c, dy, Tick(dy, s), ops[1..]);
      case Shoot(o) => InfiniteNeverExhausts(c, dy, Fire(c, s, o).after, ops[1..]);
    }
  }

  /** A finite pool of n rounds places at most n projectiles in all: every
      placed projectile costs exactly one round. */
  lemma {:induction false} FiniteAmmoConserved(c: int, dy: int, s: WeaponState, ops: seq<Op>)
    requires s.ammo.Finite?
    ensures Run(c, dy, s, ops).last.ammo.Finite?
    ensures Run(c, dy, s, ops).last.ammo.n + Run(c, dy, s, ops).shots == s.ammo.n
    decreases ops
  {
    if ops != [] {
      match ops[0]
      case Update => FiniteAmmoConserved(c, dy, Tick(dy, s), ops[1..]);
      case Shoot(o) => FiniteAmmoConserved(c, dy, Fire(c, s, o).after, ops[1..]);
    }
  }

  /** The outcomes of a run with the Ignored ones dropped: the shots the
      weapon actually took. */
  function Taken(outs: seq<Outcome>): (r: seq<Outcome>)
    ensures |r| <= |outs| && Ignored !in r
  {
    if outs == [] then []
    else (if outs[0] == Ignored then [] else [outs[0]]) + Taken(outs[1..])
  }

  /** The order of outcomes a pool of n rounds allows. */
  function ExpectedOutcomes(n: nat, m: nat): seq<Outcome>
  {
    seq(m, i => if i < n - 1 then Fired else Exhausted)
  }

  /** However shots and updates are interleaved, a pool of n rounds takes
      n - 1 shots reported as Fired, then one reported as Exhausted, and
      reports Exhausted for every shot taken after that. */
  lemma {:induction false} ExhaustionOrder(c: int, dy: int, s: WeaponState, ops: seq<Op>)
    requires s.ammo.Finite?
    ensures var taken := Taken(Run(c, dy, s, ops).outcomes);
      taken == ExpectedOutcomes(s.ammo.n, |taken|)
    decreases ops
  {
    if ops != [] {
      var n := s.ammo.n;
      match ops[0]
      case Update => ExhaustionOrder(c, dy, Tick(dy, s), ops[1..]);
      case Shoot(o) =>
        var shot := Fire(c, s, o);
        var rest := Run(c, dy, shot.after, ops[1..]);
        ExhaustionOrder(c, dy, shot.after, ops[1..]);
        var outs := [shot.outcome] + rest.outcomes;
        assert outs[1..] == rest.outcomes;
        var taken := Taken(outs);
        if shot.outcome != Ignored {
          var m := shot.after.ammo.n;
          assert m == if n > 0 then n - 1 else 0;
          assert taken == [shot.outcome] + Taken(rest.outcomes);
          assert Taken(rest.outcomes) == ExpectedOutcomes(m, |taken| - 1);
        }
    }
  }

  /** t updates in a row. */
  function Ticks(t: nat): seq<Op>
  {
    seq(t, _ => Update)
  }

  lemma {:induction false} RunTicks(c: int, dy: int, s: WeaponState, t: nat, rest: seq<Op>)
    ensures Run(c, dy, s, Ticks(t) + rest) == Run(c, dy, TickN(dy, s, t), rest)
    decreases t
  {
    if t > 0 {
      var ops := Ticks(t) + rest;
      assert ops[0] == Update && ops[1..] == Ticks(t - 1) + rest;
      RunTicks(c, dy, Tick(dy, s), t - 1, rest);
      TickNFirst(dy, s, t);
    } else {
      assert Ticks(t) + rest == rest;
    }
  }

  /** Ticking k times is ticking once and then k - 1 times. */
  lemma {:induction false} TickNFirst(dy: int, s: WeaponState, k: nat)
    requires k >= 1
    ensures TickN(dy, s, k) == TickN(dy, Tick(dy, s), k - 1)
    decreases k
  {
    if k > 1 {
      TickNFirst(dy, s, k - 1);
    }
  }

  /** k rounds of "t updates, then a shot from o". With t = 1 this is the
      order in which a firing ship drives its weapon: tick, then shoot. */
  function PacedOps(o: Point, k: nat, t: nat): seq<Op>
  {
    if k == 0 then [] else Ticks(t) + [Shoot(o)] + PacedOps(o, k - 1, t)
  }

  /** Shots separated by at least max(cooldown, 1) updates are never
      ignored: a pool of n rounds fires n - 1 times, reports exhaustion on
      the n-th shot (which still places its projectile), and reports
      exhaustion on every shot after that, placing nothing more. */
  lemma {:induction false} PacedFireExhaustsOnLastRound(
    c: int, dy: int, s: WeaponState, o: Point, n: nat, k: nat, t: nat)
    requires t >= 1 && t >= c && s.ammo == Finite(n)
    requires s.ready || s.currentCooldown <= t
    ensures var r := Run(c, dy, s, PacedOps(o, k, t));
      r.outcomes == ExpectedOutcomes(n, k)
      && r.shots == (if k <= n then k else n)
      && r.last.ammo == Finite(if k <= n then n - k else 0)
      && (r.last.ready || r.last.currentCooldown <= t)
    decreases k
  {
    if k > 0 {
      var tail := [Shoot(o)] + PacedOps(o, k - 1, t);
      assert PacedOps(o, k, t) == Ticks(t) + tail;
      RunTicks(c, dy, s, t, tail);
      var s1 := TickN(dy, s, t);
      TickNCountdown(dy, s, t);
      assert s1.ready && s1.ammo == Finite(n);
      assert tail[0] == Shoot(o) && tail[1..] == PacedOps(o, k - 1, t);
      var shot := Fire(c, s1, o);
      var m: nat := if n > 0 then n - 1 else 0;
      assert shot.after.ammo == Finite(m);
      PacedFireExhaustsOnLastRound(c, dy, shot.after, o, m, k - 1, t);
      var rest := Run(c, dy, shot.after, PacedOps(o, k - 1, t));
      assert Run(c, dy, s1, tail).outcomes == [shot.outcome] + rest.outcomes;
    }
  }
}
