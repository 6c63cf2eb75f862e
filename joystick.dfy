/**
 `joystick_ler`: the two 12-bit joystick readings are centred on
 MEIO = MAX / 2 with MAX = (1 << 12) - 1 = 4095 and scaled into [-1, 1];
 the pair is then classified with `rosa`. The analog reads are inputs here,
 and so is the angle `atan2f` would compute from the normalised pair.
 */
module Joystick {
  import Compass

  /** (1 << 12) - 1, the largest 12-bit reading. */
  const Max: real := 4095.0
  /** The centre of the 12-bit range, 2047.5. */
  const Meio: real := Max / 2.0

  /** `(raw - MEIO) / MEIO`. */
  function Normalize(raw: nat): (r: real)
    ensures raw <= 4095 ==> -1.0 <= r <= 1.0
    ensures r == -1.0 <==> raw == 0
    ensures r == 1.0 <==> raw == 4095
    ensures r < 0.0 <==> raw <= 2047
  {
    ((raw as real) - Meio) / Meio
  }

  /** Scaling back by MEIO recovers the reading, so no two readings share a
      normalised value. */
  lemma NormalizeInverse(raw: nat)
    ensures Normalize(raw) * Meio + Meio == raw as real
  {
  }

  lemma NormalizeMonotone(a: nat, b: nat)
    requires a < b
    ensures Normalize(a) < Normalize(b)
  {
  }

  /** Mirror readings about the centre give opposite values; in particular the
      two readings next to the centre, 2047 and 2048, give -1/4095 and 1/4095. */
  lemma NormalizeSymmetric(raw: nat)
    requires raw <= 4095
    ensures Normalize(4095 - raw) == -Normalize(raw)
    ensures Normalize(2048) == 1.0 / 4095.0 && Normalize(2047) == -1.0 / 4095.0
  {
  }

  /** The firmware's `InfoJoy`. */
  datatype InfoJoy = InfoJoy(xNorm: real, yNorm: real, direcao: Compass.Direction)

  /** `joystick_ler` given the readings of ADC 1 (x) and ADC 0 (y) and the
      angle of the normalised pair in degrees. */
  function JoystickLer(rawX: nat, rawY: nat, ang: real): (j: InfoJoy)
    ensures rawX <= 4095 && rawY <= 4095 ==> -1.0 <= j.xNorm <= 1.0 && -1.0 <= j.yNorm <= 1.0
    ensures j.direcao == Compass.NoDirection <==> Compass.InDeadZone(j.xNorm, j.yNorm)
  {
    var x := Normalize(rawX);
    var y := Normalize(rawY);
    InfoJoy(x, y, Compass.Rosa(x, y, ang))
  }

  /** The dead zone in terms of raw readings: "none" exactly when both
      readings lie in 1639..2456, whatever the angle. */
  lemma DeadZoneRaw(rawX: nat, rawY: nat, ang: real)
    ensures JoystickLer(rawX, rawY, ang).direcao == Compass.NoDirection
        <==> (1639 <= rawX <= 2456 && 1639 <= rawY <= 2456)
  {
    NormalizeDeadBand(rawX);
    NormalizeDeadBand(rawY);
  }

  lemma NormalizeDeadBand(raw: nat)
    ensures Compass.Abs(Normalize(raw)) < 0.2 <==> 1639 <= raw <= 2456
  {
    var r := Normalize(raw);
    NormalizeInverse(raw);
    if 1639 <= raw <= 2456 {
      assert -409.5 < raw as real - Meio < 409.5;
    }
  }

  /** Full x deflection with y at the centre-right reading is East whenever
      the angle is in East's arc. Since the angle is an input, this adds to
      `Compass.RosaHalfOpen` for sector 3 only that the reading 4095 gives
      `xNorm == 1`, which puts the pair outside the dead zone. */
  lemma FullRightIsEast(ang: real)
    requires -22.5 <= ang < 22.5
    ensures JoystickLer(4095, 2048, ang).xNorm == 1.0
    ensures JoystickLer(4095, 2048, ang).direcao == Compass.Leste
  {
  }
}
