/** One grabber strength in three scales: the dashboard's percentage, the three-bit
    level on the wires, and the firmware's PWM value. */
module PowerScale {
  import opened Prelude
  import G = GpioAdapter
  import L = GpioLaws
  import F = Firmware

  function Clamped(percent: int): int {
    if percent < 40 then 40 else if percent > 100 then 100 else percent
  }

  /** grabber_power_percent: the percentage the dashboard shows and stores. */
  function ShownPercent(value: int): int {
    40 + G.PowerLevel(value) * 10
  }

  predicate OnScale(percent: int) {
    40 <= percent <= 100 && percent % 10 == 0
  }

  /** The shown percentage is on the scale, is a nearest one to what was asked, and
      is what was asked when that is on the scale; showing it again changes nothing.
      Half-way between two steps the even one is taken: 40, 60, 80 or 100. */
  lemma ShownIsNearest(value: int)
    ensures OnScale(ShownPercent(value))
    ensures -5 <= ShownPercent(value) - Clamped(value) <= 5
    ensures OnScale(value) ==> ShownPercent(value) == value
    ensures ShownPercent(ShownPercent(value)) == ShownPercent(value)
    ensures 40 <= value <= 100 && value % 10 == 5 ==> ShownPercent(value) % 20 == 0
  {
    ShownOnScale(value);
    ShownOnScale(ShownPercent(value));
    hide ShownPercent;
  }

  lemma ShownOnScale(value: int)
    ensures OnScale(ShownPercent(value)) && -5 <= ShownPercent(value) - Clamped(value) <= 5
    ensures OnScale(value) ==> ShownPercent(value) == value
    ensures 40 <= value <= 100 && value % 10 == 5 ==> ShownPercent(value) % 20 == 0
  {
    var n := Clamped(value) - 40;
    var q := G.RoundTenths(n);
    RoundsToNearest(n);
    assert ShownPercent(value) == 40 + 10 * q;
    hide G.RoundTenths, ShownPercent;
    OnTens(q);
    assert 40 <= value <= 100 ==> n % 10 == value % 10;
  }

  lemma OnTens(q: nat)
    ensures (40 + 10 * q) % 10 == 0 && (q % 2 == 0 ==> (40 + 10 * q) % 20 == 0)
  {
    assert q % 2 == 0 ==> 40 + 10 * q == 20 * (2 + q / 2);
  }

  lemma RoundsToNearest(n: nat)
    requires n <= 60
    ensures var q := G.RoundTenths(n);
            && q <= 6 && -5 <= 10 * q - n <= 5 && (n % 10 == 0 ==> 10 * q == n) && (n % 10 == 5 ==> q % 2 == 0)
  {
  }

  lemma TenthsMonotone(m: nat, n: nat)
    requires m <= n
    ensures G.RoundTenths(m) <= G.RoundTenths(n)
  {
  }

  lemma LevelMonotone(percent: int, other: int)
    requires percent <= other
    ensures G.PowerLevel(percent) <= G.PowerLevel(other)
  {
    TenthsMonotone(Clamped(percent) - 40, Clamped(other) - 40);
  }

  /** The firmware's scale: one step of the level is ten points of full output. */
  lemma HoldOfLevel(level: F.Code)
    requires level < RESERVED_CODE
    ensures F.HoldPwm(level) == (40 + level * 10) * F.FULL_PWM / 100 <= F.FULL_PWM
    ensures forall more: F.Code :: level < more < RESERVED_CODE ==> F.HoldPwm(level) < F.HoldPwm(more)
  {
  }

  /** Whatever percentage is asked for, the firmware holds with the shown one of full
      output, so with exactly that one when it is on the scale. Asking for more never
      means a weaker hold, and means a stronger one exactly when the shown percentage
      is greater. No setting means the reserved code. */
  lemma StrengthArrives(percent: int, other: int)
    ensures G.PowerLevel(percent) < RESERVED_CODE && G.PowerLevel(other) < RESERVED_CODE
    ensures F.HoldPwm(G.PowerLevel(percent)) == ShownPercent(percent) * F.FULL_PWM / 100 <= F.FULL_PWM
    ensures OnScale(percent) ==> F.HoldPwm(G.PowerLevel(percent)) == percent * F.FULL_PWM / 100
    ensures percent <= other ==> F.HoldPwm(G.PowerLevel(percent)) <= F.HoldPwm(G.PowerLevel(other))
    ensures F.HoldPwm(G.PowerLevel(percent)) < F.HoldPwm(G.PowerLevel(other))
            <==> ShownPercent(percent) < ShownPercent(other)
  {
    L.PowerLevelInRange(percent);
    L.PowerLevelInRange(other);
    ShownIsNearest(percent);
    hide G.PowerLevel, F.HoldPwm;
    HoldOfLevel(G.PowerLevel(percent));
    HoldOfLevel(G.PowerLevel(other));
    if percent <= other {
      LevelMonotone(percent, other);
    }
  }
}
