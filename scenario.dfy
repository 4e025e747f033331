// A ship driven through a few ticks, checked against the contracts of the
// Weapon and Spaceship classes alone.

module Scenario {
  import opened Utils
  import opened Weapons
  import opened Ships
  import App

  /** A blaster with two rounds and a one-tick cooldown, fired on three
      consecutive updates: it shoots twice, the second shot reports
      exhaustion and switches to the laser, and the laser fires on the
      third update. Returns the projectiles in flight per weapon, the
      selection and the blaster's rounds left. */
  method TwoRoundBlaster() returns (blasterShots: nat, laserShots: nat, selected: nat, blasterAmmo: Ammo)
    ensures blasterShots == 2 && laserShots == 1 && selected == 1
    ensures blasterAmmo == Finite(0)
  {
    var blaster := new Weapon(Blaster, "2", "2", 1, 1, 1, 1);
    var laser := new Weapon(Laser, "infinite", "infinite", 1, 1, 1, 1);
    var um := new Weapon(UM, "5", "5", 1, 1, 1, 1);
    assert ParseAmmo("2") == Some(Finite(2)) by { assert IsDigits("2"); }
    var ship := new Spaceship(App.Field, [blaster, laser, um]);
    assert ship.pos.y == 20;

    ship.ToggleFire();
    ship.Update();
    assert blaster.State() == WeaponState(Finite(1), 1, false, [ship.pos.(x := ship.pos.x + 1, y := 19)]);
    ship.Update();
    assert blaster.ammo == Finite(0) && |blaster.coords| == 2;
    assert ship.selected == 1;
    ship.Update();
    blasterShots, laserShots, selected, blasterAmmo := |blaster.coords|, |laser.coords|, ship.selected, blaster.ammo;
  }
}
