// The game's input step (App.events of xoi.py): one key code, read without
// blocking, becomes at most one command on the ship, or the request to quit.

module App {
  import opened Utils
  import opened Ships

  const KeyQ := 'q' as int
  const KeyE := 'e' as int
  const KeyA := 'a' as int
  const KeyD := 'd' as int
  const KeySpace := ' ' as int
  const KeyEscape := 27

  /** The process exit status on quitting. */
  const QuitStatus := 1

  /** The size of the screen, and the field the ship moves in: one row
      shorter, leaving the bottom row to the status line. */
  const Border := Point(80, 24)
  const Field := Point(Border.x, Border.y - 1)

  datatype Command =
    | Quit(status: int)
    | MoveLeft
    | MoveRight
    | NextWeapon
    | PrevWeapon
    | ToggleFire
    | NoCommand

  function Dispatch(key: int): (c: Command)
    ensures c != NoCommand <==> key in {KeyEscape, KeyA, KeyD, KeyE, KeyQ, KeySpace}
    ensures c.Quit? <==> key == KeyEscape
    ensures c.Quit? ==> c.status == QuitStatus
  {
    if key == KeyEscape then Quit(QuitStatus)
    else if key == KeyA then MoveLeft
    else if key == KeyD then MoveRight
    else if key == KeyE then NextWeapon
    else if key == KeyQ then PrevWeapon
    else if key == KeySpace then ToggleFire
    else NoCommand
  }

  /** Each of the six keys has its own command, escape quits with status 1,
      and every other key (including "no key pending") does nothing. */
  lemma DispatchTable(key: int)
    ensures Dispatch(27) == Quit(1)
    ensures Dispatch(97) == MoveLeft && Dispatch(100) == MoveRight
    ensures Dispatch(101) == NextWeapon && Dispatch(113) == PrevWeapon
    ensures Dispatch(32) == ToggleFire
    ensures key !in {27, 97, 100, 101, 113, 32} ==> Dispatch(key) == NoCommand
  {
  }

  /** Different keys that do something do different things. */
  lemma DispatchInjective(k1: int, k2: int)
    requires Dispatch(k1) != NoCommand && k1 != k2
    ensures Dispatch(k1) != Dispatch(k2)
  {
  }

  /** Applies the command of one key to the ship. Returns the exit status
      when the key asks to quit, and then leaves the ship alone. */
  method Events(ship: Spaceship, key: int) returns (exit: Option<int>)
    requires ship.Valid()
    modifies ship`dx, ship`fire, ship`selected
    ensures ship.Valid()
    ensures exit == (if Dispatch(key).Quit? then Some(QuitStatus) else None)
    ensures var c := Dispatch(key);
      && ship.dx == (match c case MoveLeft => -1 case MoveRight => 1 case _ => old(ship.dx))
      && ship.fire == (if c == ToggleFire then !old(ship.fire) else old(ship.fire))
      && ship.selected == (match c
                           case NextWeapon => NextIndex(old(ship.selected), |ship.weapons|)
                           case PrevWeapon => PrevIndex(old(ship.selected), |ship.weapons|)
                           case _ => old(ship.selected))
  {
    exit := None;
    if key == KeyEscape {
      exit := Some(QuitStatus);
    } else if key == KeyA {
      ship.MoveLeft();
    } else if key == KeyD {
      ship.MoveRight();
    } else if key == KeyE {
      ship.NextWeapon();
    } else if key == KeyQ {
      ship.PrevWeapon();
    } else if key == KeySpace {
      ship.ToggleFire();
    }
  }
}
