# XOInvader simulation core in Dafny

A model of the simulation core of XOInvader, a terminal shooter: the
weapon state machine of `weapon.py` and the ship, gauge and key dispatch
of `xoi.py`. The model has these parts:

- **Weapon** (`weapon.dfy`, module `Weapons`). A class with the source's fields.
  - Ammo is `Finite(n) | Infinite`. It is parsed from configuration text: digits give a count, `"infinite"` gives the marker.
  - There is a cooldown countdown, a `ready` flag and an ordered list of projectile points.
  - `MakeShot` returns a tagged outcome (`Ignored | Fired | Exhausted`). The source raises `ValueError` instead.
  - `Update` is the source's loop that rebuilds the projectile list, followed by the countdown tick.
  - Both methods are proved against the pure transitions `Fire` and `Tick`.
  - `weapon_lemmas.dfy` states what one shot and one tick do in each case, and what holds over any run of shots and ticks.
- **Spaceship** (`ship.dfy`, module `Ships`). A class with a pending move `dx`, a fire toggle, and an index into a fixed, non-empty sequence of distinct weapon objects.
  - `Update` moves with wraparound, clears `dx`, ticks only the selected weapon, fires it from `(x + 1, y)`, and moves to the next weapon on exhaustion.
  - `ship_lemmas.dfy` proves that selection is cyclic and that movement is a rotation of the field.
- **Bar** (`bar.dfy`, module `Bars`).
  - The element count is `round(value * 10 / max)` with Python's half-to-even rounding, or 0 for a non-positive value.
  - The severity tier of each cell depends only on the cell's index.
  - `Render` is the drawing loop. It returns the draw calls and the end point.
- **Key dispatch** (`app.dfy`, module `App`). `App.events` becomes a pure key-to-command function, plus a method that applies the command to the ship.
- `scenario.dfy` holds a client. It drives a two-round blaster through three ship updates using only the class contracts.

In a few places the code behaves differently from what one might expect, and the model follows the code:

- A ready weapon whose finite pool is already 0 still reports exhaustion. It does not silently ignore the shot.
- The shot that empties the pool reports exhaustion before the cooldown is set. The weapon therefore stays ready and its countdown is unchanged.
- The countdown is never floored at zero, so it goes negative.
- The bar's element count is not clamped to ten cells.
- Wrapping right restarts from column 0 and then adds `dx`. Wrapping left restarts from `border.x - width` and then adds `dx`.

## Model

| member | source | states |
|---|---|---|
| Weapons.ParseShowAmmo | weapon.py:38-39 | parsing the configuration text of any ammo pool gives that pool back: digit strings parse to their count and "infinite" to the marker |
| Weapons.ShowNatIsDigits | weapon.py:38 | the decimal numeral of a count passes isdigit and int() reads it back as the same count |
| Weapons.TypeName | weapon.py:87-89 | the `type` property is one of the variant class names "Blaster", "Laser", "UM" |
| Weapons.TypeNameIdentifiesKind | weapon.py:87-89 | two weapons report the same type name iff they are the same variant |
| Weapons.Glyph | weapon.py:104-121 | the projectile glyph of Blaster and Laser is one cell, that of UM a column of three cells |
| Weapons.Fire | weapon.py:56-68 | a shot is Ignored iff the weapon is not ready; Exhausted iff it was ready and the pool is finite 0 afterwards; a Fired shot leaves the weapon unready with the countdown at the cooldown; any other outcome leaves ready and the countdown as they were |
| Weapons.Tick | weapon.py:92-100 | an update keeps the ammo, strictly lowers the countdown, never makes a ready weapon unready, and never lengthens the projectile list |
| Weapons.Displayed | weapon.py:77-84 | the displayed ammo is 999 for the infinite marker and the raw count otherwise |
| Weapons.Advanced | weapon.py:92-97 | the projectile list never grows during an update |
| Weapons.Weapon.constructor | weapon.py:35-49 | a new weapon holds the parsed ammo and max ammo and the given parameters; it is ready, its countdown is 0 and it has no projectiles |
| Weapons.Weapon.PrepareWeapon | weapon.py:51-53 | sets ready and changes nothing else |
| Weapons.Weapon.MakeShot | weapon.py:56-68 | the new state and the outcome are exactly those of Fire on the old state (the lemmas below give each case) |
| Weapons.Weapon.Update | weapon.py:92-100 | the loop rebuilds the projectile list as Advanced of the old list; the countdown drops by one and ready is set when it is at most 0 |
| Weapons.Weapon.DisplayedAmmo | weapon.py:77-79 | the ammo property is 999 for infinite ammo, else the count |
| Weapons.Weapon.Type | weapon.py:87-89 | the `type` property reports "Blaster", "Laser" or "UM" exactly when the weapon is of that variant |
| Weapons.Weapon.DisplayedMaxAmmo | weapon.py:82-84 | the max_ammo property is 999 for infinite, else the count |
| WeaponLemmas.FireWhenNotReady | weapon.py:56-58 | a weapon that is not ready ignores the shot: no projectile, and ammo, countdown and flag are unchanged |
| WeaponLemmas.FireInfinite | weapon.py:60-68 | infinite ammo and ready: exactly one projectile at (x, y - 1), ammo unchanged, not ready, countdown = cooldown, outcome Fired (never Exhausted) |
| WeaponLemmas.FireFinite | weapon.py:62-68 | finite ammo above 1 and ready: one projectile appended, one round spent, not ready, countdown = cooldown, outcome Fired |
| WeaponLemmas.FireLastRound | weapon.py:62-65 | the last round is appended and ammo becomes 0, then Exhausted is reported with ready and the countdown as they were |
| WeaponLemmas.FireEmpty | weapon.py:62-65 | finite ammo 0 and ready: nothing appended, ammo stays 0, state unchanged, and Exhausted is still reported |
| WeaponLemmas.FireSpendsAtMostOne | weapon.py:60-64 | a shot keeps the old projectiles as a prefix and adds one only when ready with ammo left; a finite pool loses exactly that one round and stays a natural number, an infinite pool stays infinite |
| WeaponLemmas.TickCountdown | weapon.py:98-100 | an update lowers the countdown by exactly 1, becomes ready iff it was ready or the new countdown is at most 0 (never unready), and leaves ammo alone |
| WeaponLemmas.AdvancedKeepsSurvivorsInOrder | weapon.py:92-97 | after an update the projectiles are exactly those with y - dy > 0 (both directions), each with y lowered by dy and x kept, in their original relative order |
| WeaponLemmas.TickNCountdown | weapon.py:98-100 | after k updates the countdown has dropped by k and the weapon is ready iff it was ready or the countdown reached 0 or below |
| WeaponLemmas.ReadyAgainAfterCooldown | weapon.py:67-100 | after a shot that fired, the weapon is ready after k updates iff k is at least 1 and at least the cooldown |
| WeaponLemmas.InfiniteNeverExhausts | weapon.py:60-65 | with infinite ammo no sequence of shots and updates ever reports Exhausted, and the ammo stays infinite |
| WeaponLemmas.FiniteAmmoConserved | weapon.py:60-64 | over any sequence of shots and updates, the rounds left plus the projectiles placed equal the starting count, so a pool of n places at most n projectiles |
| WeaponLemmas.ExhaustionOrder | weapon.py:56-68 | over any interleaving of shots and updates, the shots a pool of n rounds takes (outcomes other than Ignored) are n - 1 Fired, then Exhausted, then only Exhausted |
| WeaponLemmas.PacedFireExhaustsOnLastRound | weapon.py:56-100 | shots separated by at least max(cooldown, 1) updates are never ignored: n rounds give n - 1 Fired, Exhausted on the n-th shot (which still places its projectile), and Exhausted without a projectile on every later shot; the placed count is min(k, n) |
| Ships.IndexOf | xoi.py:57 | list.index finds the first position holding that very weapon object |
| Ships.NextIndex | xoi.py:56-61 | the next selection is again a valid index |
| Ships.PrevIndex | xoi.py:64-69 | the previous selection is again a valid index |
| Ships.Wrap | xoi.py:73-79 | no pending move leaves x as it is; otherwise the new column is x + dx, or dx from column 0, or dx from border.x - width |
| Ships.Spaceship.DamageMax | xoi.py:105-106 | the maximum hull and shield are non-negative |
| Ships.Spaceship.DamageInfo | xoi.py:109-110 | the current hull and shield each lie between 0 and their maximum |
| Ships.Spaceship.GetRenderData | xoi.py:113-114 | the ship's position and its sprite, which is 3 rows of 3 cells, the width the wraparound allows for |
| Ships.Spaceship.constructor | xoi.py:24-40 | the ship is placed at (border.x // 2 - 1, border.y - 3) with a pending move of +1, not firing, the first weapon selected and hull and shield at 100 of 100 |
| Ships.Spaceship.MoveLeft | xoi.py:44-45 | the pending move becomes -1, replacing any earlier value |
| Ships.Spaceship.MoveRight | xoi.py:48-49 | the pending move becomes +1, replacing any earlier value |
| Ships.Spaceship.ToggleFire | xoi.py:52-53 | fire is negated, so two toggles restore it |
| Ships.Spaceship.NextWeapon | xoi.py:56-61 | the selection moves to the next weapon, wrapping from the last to the first; no weapon is modified |
| Ships.Spaceship.PrevWeapon | xoi.py:64-69 | the selection moves to the previous weapon, wrapping from the first to the last; no weapon is modified |
| Ships.Spaceship.Update | xoi.py:72-86 | x moves by Wrap and y is unchanged; dx becomes 0; only the selected weapon changes: it is ticked, then, if firing, shot from (x + 1, y); the selection advances by one exactly when that shot reports Exhausted |
| ShipLemmas.NextPrevInverse | xoi.py:56-69 | next and previous selection undo each other |
| ShipLemmas.NextNIsRotation | xoi.py:56-61 | k next_weapon calls land on (i + k) mod n |
| ShipLemmas.PrevNIsRotation | xoi.py:64-69 | k prev_weapon calls land on (i - k) mod n |
| ShipLemmas.FullCycle | xoi.py:56-69 | n calls in either direction return to the starting weapon |
| ShipLemmas.WrapCases | xoi.py:73-79 | at the right edge a move of +1 gives column 1; at column 1 a move of -1 gives the right edge border.x - width - 1; otherwise x + dx |
| ShipLemmas.WrapStaysInField | xoi.py:73-79 | with a right edge at least 1 and dx in {-1, 0, 1}, a column in 1 .. right edge stays there |
| ShipLemmas.WrapIsRotation | xoi.py:73-79 | holding one direction for k updates moves the ship k columns round the field, modulo its width |
| Bars.RoundHalfEven | xoi.py:149 | the result is an integer nearest to p / q, and on a tie it is the even one |
| Bars.RoundHalfEvenUnique | xoi.py:149 | any integer that is nearest to p / q and even on ties equals RoundHalfEven, so the rounding is exactly Python's round |
| Bars.ElementsRounds | xoi.py:149 | for a positive value the element count is round-half-to-even of value * 10 / max, for either sign of max |
| Bars.ElementsWithinGauge | xoi.py:149 | for a value at most a positive maximum the count lies in 0 .. 10 |
| Bars.ElementsExamples | xoi.py:149 | 55 of 100 gives 6, 25 of 100 gives 2 (ties to even), 0 gives 0, 150 of 100 gives 15 (no clamp) |
| Bars.Elements | xoi.py:149 | a non-positive value fills no cell, and a positive value over a positive maximum never fills a negative count |
| Bars.TierOf | xoi.py:170-175 | cells 1-3 are ok, 4-6 middle, and every other index critical, both directions |
| Bars.Bar.constructor | xoi.py:144-149 | a non-empty title gets ": " appended, and the element count is Elements of the value and maximum |
| Bars.Bar.UpdateValue | xoi.py:157-158 | the value is floored at 0 and the element count is left as it was |
| Bars.Bar.Render | xoi.py:162-179 | draws the title, then "[" after it, then cell i at the "[" column + i in TierOf(i) for i in 1 .. elems, then "]"; returns the point of the "]", whose column is start + len(title) + elems + 1 (a non-positive count draws no cells) |
| App.Dispatch | xoi.py:232-246 | a key has a command iff it is escape, a, d, e, q or space, and only escape quits, with status 1 |
| App.DispatchTable | xoi.py:232-246 | escape quits with status 1; a, d, e, q and space map to left, right, next, prev and toggle; every other key does nothing |
| App.DispatchInjective | xoi.py:232-246 | two different keys with a command never give the same command |
| App.Events | xoi.py:232-246 | applies exactly the dispatched command to the ship, or returns exit status 1 on escape without touching the ship |
| Scenario.TwoRoundBlaster | xoi.py:72-86 | a firing ship with a two-round, one-tick blaster shoots on two updates, switches to the laser on the second shot's exhaustion, and the laser fires on the third update |

## Left out

- Terminal I/O is not modelled: curses setup and teardown, drawing, colour pairs, `getch`, `time.sleep` and `sys.exit` (xoi.py:195-236, 253-275). The pressed key is a parameter of `App.Events`. Quitting is returned as an exit status.
- Reading the configuration (weapon.py:8-12, 28-31) is not modelled. Weapon parameters are constructor arguments.
- Weapons.Weapon.constructor: requires the ammo and max-ammo texts to be ASCII digit strings or "infinite". The source keeps any other text as it is. For max ammo, the `max_ammo` property then shows that text unchanged. For ammo, the `ammo` property shows the text too, and the first shot of a ready weapon raises TypeError at weapon.py:62. Non-ASCII digits that pass isdigit are not modelled either.
- The cooldown is modelled as an integer tick count. The source uses a float.
- Bars.Elements: uses exact rational arithmetic for value * 10 / max. This matches Python's float division plus round except where float rounding error matters, which needs very large values.
- Bars.Elements: requires a non-zero maximum when the value is positive. The source raises ZeroDivisionError at xoi.py:149 for a positive value over a maximum of 0, and the model excludes that case (Bars.Bar.constructor has the same requirement).
- Bars.Bar.Render: returns the end point. The source advances the caller's Point object in place. That aliasing is not modelled. The style is reduced to plain or a tier, without the bold attribute.
- Bars.Bar.Render: draws cells 7 and above in the Critical tier. The source reads `Color.dp_critcal` for them (xoi.py:175), while the pair it registers is `Color.dp_critical` (xoi.py:207). Unless utils.py defines both names, the source raises AttributeError at the seventh cell. utils.py is not part of this model, so this is not settled here.
- `Point`, `Surface`, the renderer and the logger (utils.py, render.py) are not part of this model. Points are integer pairs and images are character grids.
- `DamagePanel` (xoi.py:119-140) is not modelled. It reads an undefined `owner` and does not render anything.
- Only the count formula of `Bar.__init__` is modelled. The rest reads the undefined `owner` and `max_value`, so the bar takes its value and maximum as arguments.
- `get_weapon_info`'s string formatting (xoi.py:99-102) is not modelled.
- The render step's direct read of the ship's private weapon (xoi.py:270) is not modelled. That line also unpacks the pair as `image, coords`, while `get_render_data` returns `(coords, image)` (weapon.py:72).
- The endless `App.loop` (xoi.py:277-281) is not modelled. `App.update` (xoi.py:249-250) is `Spaceship.Update` itself.
- The weapon list at xoi.py:34 does not run as written. The ship instead takes its non-empty sequence of distinct weapons as a constructor argument.
