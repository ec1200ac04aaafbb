/**
 * The short-lived hit marker a tower leaves where its target stood
 * (viewer/Explosion.java), and the per-frame ageing of the board's list of
 * them (board/Board.java updateExplosions).
 */
module Explosions {
  import opened Tiles

  /** INITIAL_LIFETIME: ten frames. */
  const InitialLifetime: int := 10

  /** The state of one explosion. */
  datatype ExplosionData = ExplosionData(position: Point, lifetime: int)

  /** isExpired. */
  predicate Expired(x: ExplosionData)
  {
    x.lifetime <= 0
  }

  /** A new explosion at `p`. */
  function Fresh(p: Point): (x: ExplosionData)
    ensures x.position == p && !Expired(x)
  {
    ExplosionData(p, InitialLifetime)
  }

  /** decreaseLifetime. */
  function Decreased(x: ExplosionData): (y: ExplosionData)
    ensures y.position == x.position && y.lifetime + 1 == x.lifetime
  {
    x.(lifetime := x.lifetime - 1)
  }

  /**
   * updateExplosions on the list's states: every explosion ages one frame and
   * those that have run out are dropped; the rest keep their order.
   */
  function Aged(xs: seq<ExplosionData>): (r: seq<ExplosionData>)
    ensures |r| <= |xs|
    ensures forall k :: 0 <= k < |r| ==> !Expired(r[k])
    decreases |xs|
  {
    if xs == [] then []
    else
      var n := |xs| - 1;
      var y := Decreased(xs[n]);
      if Expired(y) then Aged(xs[..n]) else Aged(xs[..n]) + [y]
  }

  /**
   * Ageing keeps exactly the explosions with more than one frame left, each
   * one frame older: an explosion of lifetime above 1 survives, and every
   * survivor comes from one.
   */
  lemma {:induction false} AgedSpec(xs: seq<ExplosionData>)
    ensures forall k :: 0 <= k < |xs| && xs[k].lifetime > 1 ==> Decreased(xs[k]) in Aged(xs)
    ensures forall y :: y in Aged(xs) ==> exists k :: 0 <= k < |xs| && xs[k].lifetime > 1 && y == Decreased(xs[k])
    decreases |xs|
  {
    if xs != [] {
      var n := |xs| - 1;
      AgedSpec(xs[..n]);
      forall k | 0 <= k < |xs| && xs[k].lifetime > 1
        ensures Decreased(xs[k]) in Aged(xs)
      {
        if k < n {
          assert xs[..n][k] == xs[k];
        }
      }
      forall y | y in Aged(xs)
        ensures exists k :: 0 <= k < |xs| && xs[k].lifetime > 1 && y == Decreased(xs[k])
      {
        if y in Aged(xs[..n]) {
          var k :| 0 <= k < n && xs[..n][k].lifetime > 1 && y == Decreased(xs[..n][k]);
          assert xs[k] == xs[..n][k];
        } else {
          assert y == Decreased(xs[n]) && xs[n].lifetime > 1;
        }
      }
    }
  }

  /** The list after `n` frames of ageing. */
  function AgedTimes(xs: seq<ExplosionData>, n: nat): seq<ExplosionData>
    decreases n
  {
    if n == 0 then xs else AgedTimes(Aged(xs), n - 1)
  }

  /**
   * A lone new explosion is still listed after 9 frames of ageing, one frame
   * left, and gone after the tenth: the ten-frame display of INITIAL_LIFETIME.
   */
  lemma {:induction false} ShownForTenFrames(p: Point, n: nat)
    ensures n < InitialLifetime ==> AgedTimes([Fresh(p)], n) == [ExplosionData(p, InitialLifetime - n)]
    ensures n >= InitialLifetime ==> AgedTimes([Fresh(p)], n) == []
  {
    var k := 0;
    var xs := [Fresh(p)];
    while k < n && k < InitialLifetime
      invariant k <= n && k <= InitialLifetime
      invariant AgedTimes([Fresh(p)], n) == AgedTimes(xs, n - k)
      invariant xs == (if k < InitialLifetime then [ExplosionData(p, InitialLifetime - k)] else [])
    {
      assert xs[..0] == [];
      xs := Aged(xs);
      k := k + 1;
    }
    if k == InitialLifetime {
      AgedEmpty(n - k);
    }
  }

  /** Nothing to age stays nothing. */
  lemma {:induction false} AgedEmpty(n: nat)
    ensures AgedTimes([], n) == []
  {
    if n > 0 {
      AgedEmpty(n - 1);
    }
  }

  /** One explosion on the board. */
  class Explosion {
    const position: Point
    var lifetime: int

    function Data(): ExplosionData
      reads this
    {
      ExplosionData(position, lifetime)
    }

    /** A new explosion at `position`, not yet expired. */
    constructor(position: Point)
      ensures Data() == Fresh(position)
    {
      this.position := position;
      lifetime := InitialLifetime;
    }

    /** getPosition. */
    function GetPosition(): Point
      reads this
    {
      position
    }

    /** decreaseLifetime: one frame older. */
    method DecreaseLifetime()
      modifies this
      ensures Data() == Decreased(old(Data()))
    {
      lifetime := lifetime - 1;
    }

    /** isExpired. */
    predicate IsExpired()
      reads this
    {
      Expired(Data())
    }
  }
}
