/**
 * The value side of a tower powerup (powerup/PowerupType.java,
 * powerup/Powerup.java, powerup/MultiplierPowerup.java): which tower attribute
 * a powerup boosts and by how much, when it runs out, and the one-shot revert
 * that `isExpired` performs. Times are wall-clock milliseconds passed in as
 * `now`; multipliers are percentages (100 = 1.0).
 */
module Powerups {

  datatype PowerupType = DoubleDamage | DoubleFireRate | RangeBoost

  /** MultiplierPowerup.PowerupAttribute: the tower field a powerup overwrites. */
  datatype Attribute = Damage | FireRate | Range

  /** The neutral multiplier, 1.0. */
  const DefaultPct: int := 100

  /**
   * getCost: the shop price of each powerup. Every powerup costs between
   * 100 and 150 coins, and Double Damage is the one at the lowest price.
   */
  function Cost(t: PowerupType): (r: int)
    ensures 100 <= r <= 150
    ensures r == 100 <==> t == DoubleDamage
  {
    match t
    case DoubleDamage => 100
    case DoubleFireRate => 150
    case RangeBoost => 125
  }

  /** The attribute each of the three factories boosts. */
  function AttributeOf(t: PowerupType): Attribute
  {
    match t
    case DoubleDamage => Damage
    case DoubleFireRate => FireRate
    case RangeBoost => Range
  }

  /** The multiplier each of the three factories uses: 2.0, 2.0 and 1.5. */
  function MultiplierPct(t: PowerupType): int
  {
    match t
    case DoubleDamage => 200
    case DoubleFireRate => 200
    case RangeBoost => 150
  }

  /** Each kind boosts its own attribute, and every boost is a real increase. */
  lemma FactoriesAreDistinct(a: PowerupType, b: PowerupType)
    ensures a != b ==> AttributeOf(a) != AttributeOf(b)
    ensures MultiplierPct(a) > DefaultPct
  {
  }

  /** The state of one powerup object. */
  datatype PowerupData = PowerupData(
    powerupType: PowerupType,
    attribute: Attribute,
    multiplierPct: int,
    startTime: int,
    duration: int,
    effectActive: bool)

  /** The powerup the factory builds for `t`, started at `now`, with its effect on. */
  function Created(t: PowerupType, duration: int, now: int): (p: PowerupData)
    ensures p.powerupType == t && p.effectActive && p.startTime == now && p.duration == duration
    ensures p.attribute == AttributeOf(t) && p.multiplierPct == MultiplierPct(t)
  {
    PowerupData(t, AttributeOf(t), MultiplierPct(t), now, duration, true)
  }

  /** The expiry test of isExpired: at least `duration` ms since the start. */
  predicate Expired(p: PowerupData, now: int)
  {
    now - p.startTime >= p.duration
  }

  /**
   * One call of isExpired: the new state and whether this call reverted the
   * effect on the tower. Only the first expired observation of an active
   * powerup reverts.
   */
  function Observe(p: PowerupData, now: int): (PowerupData, bool)
  {
    if Expired(p, now) && p.effectActive then (p.(effectActive := false), true)
    else (p, false)
  }

  /** An observation changes only the flag, and only turns it off. */
  lemma ObserveSpec(p: PowerupData, now: int)
    ensures var (q, reverted) := Observe(p, now);
      q.(effectActive := p.effectActive) == p &&
      (reverted <==> p.effectActive && Expired(p, now)) &&
      (q.effectActive <==> p.effectActive && !Expired(p, now))
  {
  }

  /** The state after isExpired has been called at each of `times`, in order. */
  function ObserveAll(p: PowerupData, times: seq<int>): PowerupData
    decreases |times|
  {
    if times == [] then p else ObserveAll(Observe(p, times[0]).0, times[1..])
  }

  /** How many of those calls reverted the effect. */
  function Reverts(p: PowerupData, times: seq<int>): nat
    decreases |times|
  {
    if times == [] then 0
    else (if Observe(p, times[0]).1 then 1 else 0) + Reverts(Observe(p, times[0]).0, times[1..])
  }

  /**
   * However often isExpired is called, the effect is reverted at most once,
   * and exactly once when the powerup was active and one of the calls saw it
   * expired; after that call the effect stays off.
   */
  lemma {:induction false} RevertsAtMostOnce(p: PowerupData, times: seq<int>)
    ensures Reverts(p, times) <= (if p.effectActive then 1 else 0)
    ensures !p.effectActive ==> !ObserveAll(p, times).effectActive
    ensures p.effectActive && (exists k :: 0 <= k < |times| && Expired(p, times[k])) ==>
              Reverts(p, times) == 1 && !ObserveAll(p, times).effectActive
    ensures !(exists k :: 0 <= k < |times| && Expired(p, times[k])) ==> ObserveAll(p, times) == p
    decreases |times|
  {
    if times != [] {
      var q := Observe(p, times[0]).0;
      assert q.startTime == p.startTime && q.duration == p.duration;
      RevertsAtMostOnce(q, times[1..]);
      if !q.effectActive {
        assert Reverts(q, times[1..]) == 0;
      }
      if p.effectActive && (exists k :: 0 <= k < |times| && Expired(p, times[k])) && !Expired(p, times[0]) {
        var k :| 0 <= k < |times| && Expired(p, times[k]);
        assert Expired(q, times[1..][k - 1]);
      }
      if !(exists k :: 0 <= k < |times| && Expired(p, times[k])) {
        assert !Expired(p, times[0]);
        forall k | 0 <= k < |times[1..]|
          ensures !Expired(q, times[1..][k])
        {
          assert times[1..][k] == times[k + 1];
        }
      }
    }
  }

  /** getRemainingTime: the milliseconds left, never negative. */
  function RemainingTime(p: PowerupData, now: int): (r: int)
    ensures r >= 0
    ensures r == 0 <==> Expired(p, now)
    ensures !Expired(p, now) ==> now + r == p.startTime + p.duration
  {
    var elapsed := now - p.startTime;
    if p.duration - elapsed > 0 then p.duration - elapsed else 0
  }
}
