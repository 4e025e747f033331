// Properties of the ship's movement and weapon selection.

module ShipLemmas {
  import opened Ships

  // ---------------------------------------------------------------------
  // Weapon selection.

  /** Next and previous undo each other. */
  lemma NextPrevInverse(i: nat, n: nat)
    requires i < n
    ensures PrevIndex(NextIndex(i, n), n) == i
    ensures NextIndex(PrevIndex(i, n), n) == i
  {
  }

  function NextN(i: nat, n: nat, k: nat): (r: nat)
    requires i < n
    ensures r < n
  {
    if k == 0 then i else NextIndex(NextN(i, n, k - 1), n)
  }

  function PrevN(i: nat, n: nat, k: nat): (r: nat)
    requires i < n
    ensures r < n
  {
    if k == 0 then i else PrevIndex(PrevN(i, n, k - 1), n)
  }

  /** k steps forward land on (i + k) mod n. */
  lemma {:induction false} NextNIsRotation(i: nat, n: nat, k: nat)
    requires i < n
    ensures NextN(i, n, k) == (i + k) % n
  {
    if k == 0 {
      ModUnique(i, n, 0, i);
    } else {
      NextNIsRotation(i, n, k - 1);
      ModStep(i + k - 1, n);
    }
  }

  /** k steps back land on (i - k) mod n. */
  lemma {:induction false} PrevNIsRotation(i: nat, n: nat, k: nat)
    requires i < n
    ensures PrevN(i, n, k) == (i - k) % n
  {
    if k == 0 {
      ModUnique(i, n, 0, i);
    } else {
      PrevNIsRotation(i, n, k - 1);
      ModStep(i - k + 1, n);
    }
  }

  /** n steps in either direction return to the start. */
  lemma FullCycle(i: nat, n: nat)
    requires i < n
    ensures NextN(i, n, n) == i && PrevN(i, n, n) == i
  {
    NextNIsRotation(i, n, n);
    PrevNIsRotation(i, n, n);
    ModUnique(i + n, n, 1, i);
    ModUnique(i - n, n, -1, i);
  }

  // ---------------------------------------------------------------------
  // Movement.

  /** The three cases of one update's move. */
  lemma WrapCases(x: int, dx: int, borderX: int)
    ensures x == RightEdge(borderX) && dx == 1 ==> Wrap(x, dx, borderX) == 1
    ensures x == 1 && dx == -1 ==> Wrap(x, dx, borderX) == RightEdge(borderX)
    ensures !(x == RightEdge(borderX) && dx > 0) && !(x == 1 && dx < 0) ==> Wrap(x, dx, borderX) == x + dx
  {
  }

  /** With a field at least one column wide and a move of at most one
      column, the ship stays within columns 1 .. RightEdge. */
  lemma WrapStaysInField(x: int, dx: int, borderX: int)
    requires 1 <= RightEdge(borderX)
    requires -1 <= dx <= 1
    requires 1 <= x <= RightEdge(borderX)
    ensures 1 <= Wrap(x, dx, borderX) <= RightEdge(borderX)
  {
  }

  function WrapN(x: int, dx: int, borderX: int, k: nat): int
  {
    if k == 0 then x else Wrap(WrapN(x, dx, borderX, k - 1), dx, borderX)
  }

  /** Holding right (or left) moves the ship round the field cyclically:
      after k updates it is k columns further, counted modulo the field. */
  lemma {:induction false} WrapIsRotation(x: int, dx: int, borderX: int, k: nat)
    requires 1 <= RightEdge(borderX)
    requires dx == 1 || dx == -1
    requires 1 <= x <= RightEdge(borderX)
    ensures WrapN(x, dx, borderX, k) == (x - 1 + dx * k) % RightEdge(borderX) + 1
  {
    var m := RightEdge(borderX);
    if k == 0 {
      ModUnique(x - 1, m, 0, x - 1);
    } else {
      WrapIsRotation(x, dx, borderX, k - 1);
      var a := x - 1 + dx * (k - 1);
      assert a + dx == x - 1 + dx * k;
      RotateStep(a, dx, m);
    }
  }

  /** One step of a rotation modulo m. */
  lemma RotateStep(a: int, dx: int, m: int)
    requires m >= 1 && (dx == 1 || dx == -1)
    ensures Wrap(a % m + 1, dx, m + ImageWidth + 1) == (a + dx) % m + 1
  {
    ModStep(a, m);
  }

  // ---------------------------------------------------------------------
  // Arithmetic modulo m.

  lemma MulAtLeast(d: int, m: int)
    requires d >= 1 && m > 0
    ensures d * m >= m
  {
  }

  /** The quotient and remainder are the only ones with 0 <= r < m. */
  lemma ModUnique(a: int, m: int, q: int, r: int)
    requires m > 0 && 0 <= r < m && a == q * m + r
    ensures a % m == r && a / m == q
  {
    var q0, r0 := a / m, a % m;
    assert a == q0 * m + r0;
    if q0 > q {
      assert (q0 - q) * m >= m by { MulAtLeast(q0 - q, m); }
      assert false;
    } else if q0 < q {
      assert (q - q0) * m >= m by { MulAtLeast(q - q0, m); }
      assert false;
    }
  }

  /** Adding or subtracting one modulo m. */
  lemma ModStep(a: int, m: int)
    requires m > 0
    ensures (a + 1) % m == if a % m == m - 1 then 0 else a % m + 1
    ensures (a - 1) % m == if a % m == 0 then m - 1 else a % m - 1
  {
    var q, r := a / m, a % m;
    assert a == q * m + r;
    if r == m - 1 { ModUnique(a + 1, m, q + 1, 0); } else { ModUnique(a + 1, m, q, r + 1); }
    if r == 0 { ModUnique(a - 1, m, q - 1, m - 1); } else { ModUnique(a - 1, m, q, r - 1); }
  }
}
