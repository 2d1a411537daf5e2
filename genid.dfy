/**
 * `genID` (libanki/anki/utils.py): a 64-bit id made of 23 random bits above
 * 41 bits of the millisecond clock, read as a signed integer.  The function
 * keeps, in its mutable default argument, the millisecond it last ran in and
 * the random values already used in it; here that state is an object, and
 * the clock reading and the random draws are parameters.
 */
module GenId {
  import opened Wrappers

  const TimeBits: nat := 41
  /** 2^41: the times a 41-bit field holds. */
  const TimeSpan: nat := 0x200_0000_0000
  /** 2^23: the values `getrandbits(23)` returns. */
  const RandSpan: nat := 0x80_0000
  /** 2^63 and 2^64: the bounds of a signed 64-bit integer and its wrap-around. */
  const Half: int := 0x8000_0000_0000_0000
  const Full: int := 0x1_0000_0000_0000_0000

  function Pow2(k: nat): (r: nat)
    ensures r >= 1
  {
    if k == 0 then 1 else 2 * Pow2(k - 1)
  }

  lemma Pow2Add(a: nat, b: nat)
    ensures Pow2(a + b) == Pow2(a) * Pow2(b)
  {
    if a > 0 {
      Pow2Add(a - 1, b);
    }
  }

  /** Python's `|` on non-negative integers, bit by bit. */
  function BitOr(a: nat, b: nat): nat
    decreases a + b
  {
    if a == 0 then b
    else if b == 0 then a
    else 2 * BitOr(a / 2, b / 2) + (if a % 2 == 1 || b % 2 == 1 then 1 else 0)
  }

  lemma TimeSpanIsPow2()
    ensures Pow2(TimeBits) == TimeSpan
  {
    assert Pow2(10) == 1024;
    Pow2Add(10, 10);
    Pow2Add(20, 20);
    Pow2Add(40, 1);
    assert Pow2(1) == 2;
  }

  /** Or-ing a number shifted left by `k` bits with one below 2^k is adding them. */
  lemma {:induction false} BitOrShifted(a: nat, k: nat, b: nat)
    requires b < Pow2(k)
    ensures BitOr(a * Pow2(k), b) == a * Pow2(k) + b
  {
    if k == 0 {
      assert b == 0;
    } else if a != 0 && b != 0 {
      var h := Pow2(k - 1);
      assert a * Pow2(k) == 2 * (a * h);
      assert (a * Pow2(k)) / 2 == a * h && (a * Pow2(k)) % 2 == 0;
      BitOrShifted(a, k - 1, b / 2);
      assert b == 2 * (b / 2) + b % 2;
    }
  }

  /** The conversion at the end of `genID`: a value of 2^63 or more wraps to a negative one. */
  function Signed(x: int): (r: int)
    ensures (x - r) % Full == 0
    ensures 0 <= x < Full ==> -Half <= r < Half
    ensures -Half <= x < Half ==> r == x
  {
    if x >= Half then x - Full else x
  }

  /**
   * `rand << 41 | t`, made signed: with a 23-bit random value and a 41-bit
   * time, the id is the signed 64-bit reading of `rand * 2^41 + t`.
   */
  function Pack(rand: nat, t: nat): (r: int)
    ensures rand < RandSpan && t < TimeSpan ==> -Half <= r < Half && r == Signed(rand * TimeSpan + t)
  {
    if rand < RandSpan && t < TimeSpan then
      TimeSpanIsPow2();
      BitOrShifted(rand, TimeBits, t);
      assert rand * TimeSpan <= (RandSpan - 1) * TimeSpan;
      Signed(BitOr(rand * TimeSpan, t))
    else Signed(BitOr(rand * TimeSpan, t))
  }

  /** The id gives back its time and its random value: different inputs give different ids. */
  lemma PackInjective(r1: nat, t1: nat, r2: nat, t2: nat)
    requires r1 < RandSpan && t1 < TimeSpan
    requires r2 < RandSpan && t2 < TimeSpan
    requires Pack(r1, t1) == Pack(r2, t2)
    ensures r1 == r2 && t1 == t2
  {
    var x1, x2 := r1 * TimeSpan + t1, r2 * TimeSpan + t2;
    assert x1 <= (RandSpan - 1) * TimeSpan + TimeSpan - 1 < Full;
    assert x2 <= (RandSpan - 1) * TimeSpan + TimeSpan - 1 < Full;
    assert x1 == x2;
  }

  /** The first draw not used yet: the `while` loop of `genID`, cut off when the draws run out. */
  function FirstFresh(draws: seq<nat>, used: set<nat>): (r: Option<nat>)
    ensures r.Some? ==> r.value in draws && r.value !in used
    ensures r.None? <==> forall i :: 0 <= i < |draws| ==> draws[i] in used
  {
    if draws == [] then None
    else if draws[0] !in used then Some(draws[0])
    else FirstFresh(draws[1..], used)
  }

  /** The state `genID` keeps between calls. */
  class IdGenerator {
    /** Whether `genID` ran before (the default list is no longer empty). */
    var started: bool
    /** The millisecond of the last call. */
    var millis: nat
    /** The random values used in that millisecond. */
    var used: set<nat>

    /** The ids handed out in the current millisecond. */
    function Issued(): set<int>
      reads this
    {
      set r | r in used :: Pack(r, millis)
    }

    constructor()
      ensures !started && used == {}
    {
      started := false;
      millis := 0;
      used := {};
    }

    /**
     * `genID` at clock reading `t` (milliseconds) with the random values
     * `draws`: a new millisecond forgets the used values; the first draw not
     * used yet is recorded and packed with `t`.  When every draw is used the
     * source would go on drawing; here no id is produced.
     */
    method Next(t: nat, draws: seq<nat>) returns (id: Option<int>)
      modifies this
      ensures started && millis == t
      ensures var before := if old(started) && old(millis) == t then old(used) else {};
              match FirstFresh(draws, before)
              case None => id == None && used == before
              case Some(r) => id == Some(Pack(r, t)) && used == before + {r}
      ensures old(started) && old(millis) == t && t < TimeSpan && id.Some?
              && (forall i :: 0 <= i < |draws| ==> draws[i] < RandSpan)
              && (forall r :: r in old(used) ==> r < RandSpan)
              ==> id.value !in old(Issued())
    {
      if !started {
        started := true;
        millis := t;
        used := {};
      } else if millis != t {
        millis := t;
        used := {};
      }
      ghost var before := used;
      id := None;
      var i := 0;
      while i < |draws|
        invariant 0 <= i <= |draws| && used == before && id == None
        invariant FirstFresh(draws, before) == FirstFresh(draws[i..], before)
      {
        assert draws[i..][1..] == draws[i + 1..];
        if draws[i] !in used {
          used := used + {draws[i]};
          id := Some(Pack(draws[i], t));
          break;
        }
        i := i + 1;
      }
      if id.Some? && old(started) && old(millis) == t && t < TimeSpan
         && (forall k :: 0 <= k < |draws| ==> draws[k] < RandSpan)
         && (forall r :: r in old(used) ==> r < RandSpan)
      {
        var picked := draws[i];
        forall r | r in before
          ensures Pack(r, t) != Pack(picked, t)
        {
          if Pack(r, t) == Pack(picked, t) {
            PackInjective(r, t, picked, t);
          }
        }
      }
    }
  }
}
