/**
 * The ammunition and recoil bookkeeping of the AK rifle: what firing,
 * reloading and the per-frame update do to the magazine, the reserve and
 * the recoil. Readiness (Weapon::isReady, cool-down and all) is decided by
 * the unshown Weapon base class and enters as the parameter `ready`.
 */
module Weapons {

  /** 2^64: `size_t` arithmetic is modulo this. */
  const SIZE_T_MODULUS: int := 0x1_0000_0000_0000_0000
  /** The range of a 32-bit `int`. */
  const INT_MIN: int := -0x8000_0000
  const INT_MAX: int := 0x7fff_ffff

  /** Per-shot recoil increase and the recoil ceiling. */
  const RECOIL_STEP: real := 0.2
  const MAX_RECOIL: real := 1.0

  /** The value a `size_t` takes when assigned the integer `x`. */
  function SizeT(x: int): (r: nat)
    ensures r < SIZE_T_MODULUS
    ensures (x - r) % SIZE_T_MODULUS == 0
    ensures 0 <= x < SIZE_T_MODULUS ==> r == x
  {
    x % SIZE_T_MODULUS
  }

  /** The value a 32-bit `int` takes when assigned the integer `x` (two's complement). */
  function Int32(x: int): (r: int)
    ensures INT_MIN <= r <= INT_MAX
    ensures (x - r) % 0x1_0000_0000 == 0
    ensures INT_MIN <= x <= INT_MAX ==> r == x
  {
    (x - INT_MIN) % 0x1_0000_0000 + INT_MIN
  }

  function Min(a: int, b: int): (m: int)
    ensures m <= a && m <= b && (m == a || m == b)
  {
    if a <= b then a else b
  }

  /** The ammunition state of one weapon: magazine capacity, rounds loaded, reserve, recoil. */
  datatype Ammo = Ammo(magazineSize: int, current: int, total: int, recoil: real)

  /**
   * The invariant every AK keeps: the reserve is a non-negative count small
   * enough for the `int` that reload moves it through, and the recoil lies
   * in [0, 1].
   */
  predicate Sound(s: Ammo) {
    0 <= s.total <= INT_MAX && 0.0 <= s.recoil <= MAX_RECOIL
  }

  /** A new AK: a full 30-round magazine, 1000 rounds in reserve, no recoil. */
  const FRESH_AK: Ammo := Ammo(30, 30, 1000, 0.0)

  /** `_recoil += 0.2` capped at 1: the smaller of the raised recoil and the ceiling. */
  function RaisedRecoil(recoil: real): (r: real)
    ensures r <= MAX_RECOIL && r <= recoil + RECOIL_STEP
    ensures r == MAX_RECOIL || r == recoil + RECOIL_STEP
  {
    var raised := recoil + RECOIL_STEP;
    if raised > MAX_RECOIL then MAX_RECOIL else raised
  }

  /** `_recoil -= DT` floored at 0: the larger of the lowered recoil and zero. */
  function LoweredRecoil(recoil: real, dt: real): (r: real)
    ensures r >= 0.0 && r >= recoil - dt
    ensures r == 0.0 || r == recoil - dt
  {
    var lowered := recoil - dt;
    if lowered < 0.0 then 0.0 else lowered
  }

  /**
   * fire: when not ready, nothing changes and false is returned; when ready,
   * one round leaves the magazine, the reserve is untouched, the recoil is
   * raised, and true is returned.
   */
  function Fired(s: Ammo, ready: bool): (r: (Ammo, bool))
    ensures r.1 == ready
    ensures !ready ==> r.0 == s
    ensures ready ==> && r.0.current == s.current - 1
                      && r.0.total == s.total
                      && r.0.magazineSize == s.magazineSize
                      && r.0.recoil == RaisedRecoil(s.recoil)
    ensures Sound(s) ==> Sound(r.0)
  {
    if ready then (s.(current := s.current - 1, recoil := RaisedRecoil(s.recoil)), true)
    else (s, false)
  }

  /**
   * reload, with the source's machine arithmetic: the rounds needed are
   * computed as a `size_t` (wrapping when the magazine is over-full), the
   * rounds moved are the smaller of that and the reserve, held in an `int`,
   * and the reserve (a `size_t`) loses them.
   *
   * On a sound state the rounds are conserved, and a magazine that was not
   * over-full ends up full unless the reserve ran dry.
   */
  function Reloaded(s: Ammo): (r: Ammo)
    ensures r.magazineSize == s.magazineSize && r.recoil == s.recoil
    ensures Sound(s) ==> Sound(r) && r.current + r.total == s.current + s.total
    ensures Sound(s) && s.magazineSize - SIZE_T_MODULUS < s.current <= s.magazineSize ==>
              && r.current <= s.magazineSize
              && (r.current == s.magazineSize || r.total == 0)
  {
    var neededAmmo := SizeT(s.magazineSize - s.current);
    var availableAmmo := Int32(Min(SizeT(s.total), neededAmmo));
    s.(current := s.current + availableAmmo, total := SizeT(s.total - availableAmmo))
  }

  /** update: the recoil decays by the frame time `dt`; the ammunition is untouched. */
  function Updated(s: Ammo, dt: real): (r: Ammo)
    ensures r.(recoil := s.recoil) == s
    ensures s.recoil >= 0.0 && dt >= 0.0 ==> r.recoil <= s.recoil
    ensures Sound(s) && dt >= 0.0 ==> Sound(r)
  {
    s.(recoil := LoweredRecoil(s.recoil, dt))
  }

  /** A second reload changes nothing. */
  lemma ReloadIdempotent(s: Ammo)
    requires Sound(s) && s.magazineSize - SIZE_T_MODULUS < s.current <= s.magazineSize
    ensures Reloaded(Reloaded(s)) == Reloaded(s)
  {
  }

  /** A fresh AK needs no reload. */
  lemma FreshNeedsNoReload()
    ensures Sound(FRESH_AK)
    ensures Reloaded(FRESH_AK) == FRESH_AK
  {
  }

  /** Firing one shot from a full magazine and reloading costs exactly one reserve round. */
  lemma ShotThenReload(s: Ammo)
    requires Sound(s) && s.current == s.magazineSize && s.total >= 1
    ensures Reloaded(Fired(s, true).0) == s.(total := s.total - 1, recoil := RaisedRecoil(s.recoil))
  {
  }

  /**
   * The `size_t` wrap: reloading a magazine holding more than its capacity
   * does not give rounds back; it moves the whole reserve in.
   */
  lemma OverfullReloadDrainsReserve(s: Ammo)
    requires Sound(s) && s.magazineSize < s.current < s.magazineSize + SIZE_T_MODULUS - INT_MAX
    ensures Reloaded(s) == s.(current := s.current + s.total, total := 0)
  {
  }

  /** One step of a weapon's life. */
  datatype Action = Fire(ready: bool) | Reload | Update(dt: real)

  /** The state after running `actions` in order. */
  function Run(s: Ammo, actions: seq<Action>): Ammo
    decreases |actions|
  {
    if actions == [] then s
    else
      var s' := match actions[0]
        case Fire(ready) => Fired(s, ready).0
        case Reload => Reloaded(s)
        case Update(dt) => Updated(s, dt);
      Run(s', actions[1..])
  }

  /** The number of shots actually fired by `actions`. */
  function Shots(actions: seq<Action>): nat
    decreases |actions|
  {
    if actions == [] then 0
    else (if actions[0] == Fire(true) then 1 else 0) + Shots(actions[1..])
  }

  /** Frame times are never negative. */
  predicate ForwardInTime(actions: seq<Action>) {
    forall k :: 0 <= k < |actions| && actions[k].Update? ==> actions[k].dt >= 0.0
  }

  /**
   * Over any run, the invariant holds throughout, the magazine capacity
   * never changes, and every round is either in the magazine, in the
   * reserve, or was fired: ammunition is neither created nor lost.
   */
  lemma {:induction false} RunConservesRounds(s: Ammo, actions: seq<Action>)
    requires Sound(s) && ForwardInTime(actions)
    ensures Sound(Run(s, actions))
    ensures Run(s, actions).magazineSize == s.magazineSize
    ensures Run(s, actions).current + Run(s, actions).total + Shots(actions) == s.current + s.total
    decreases |actions|
  {
    if actions != [] {
      var s' := match actions[0]
        case Fire(ready) => Fired(s, ready).0
        case Reload => Reloaded(s)
        case Update(dt) => Updated(s, dt);
      assert ForwardInTime(actions[1..]) by {
        forall k | 0 <= k < |actions[1..]| && actions[1..][k].Update?
          ensures actions[1..][k].dt >= 0.0
        {
          assert actions[1..][k] == actions[k + 1];
        }
      }
      RunConservesRounds(s', actions[1..]);
    }
  }

  /** The AK's weapon state, updated in place by its methods. */
  class AK {
    var magazineSize: int
    var currentAmmo: int
    var totalAmmo: int
    var recoil: real

    function State(): Ammo
      reads this
    {
      Ammo(magazineSize, currentAmmo, totalAmmo, recoil)
    }

    predicate Valid()
      reads this
    {
      Sound(State())
    }

    constructor ()
      ensures State() == FRESH_AK
      ensures Valid()
    {
      magazineSize := 30;
      currentAmmo := 30;
      totalAmmo := 1000;
      recoil := 0.0;
    }

    /** fire: `ready` is what Weapon::isReady answers at the call. */
    method Fire(ready: bool) returns (fired: bool)
      modifies this
      ensures (State(), fired) == Fired(old(State()), ready)
      ensures old(Valid()) ==> Valid()
    {
      if ready {
        currentAmmo := currentAmmo - 1;
        recoil := recoil + RECOIL_STEP;
        recoil := if recoil > MAX_RECOIL then MAX_RECOIL else recoil;
        return true;
      }
      return false;
    }

    method Reload()
      modifies this
      ensures State() == Reloaded(old(State()))
      ensures old(Valid()) ==> Valid()
    {
      var neededAmmo := SizeT(magazineSize - currentAmmo);
      var availableAmmo := Int32(Min(SizeT(totalAmmo), neededAmmo));
      currentAmmo := currentAmmo + availableAmmo;
      totalAmmo := SizeT(totalAmmo - availableAmmo);
    }

    /** update: `dt` is the fixed frame time DT. */
    method Update(dt: real)
      modifies this
      ensures State() == Updated(old(State()), dt)
      ensures old(Valid()) && dt >= 0.0 ==> Valid()
    {
      recoil := recoil - dt;
      if recoil < 0.0 {
        recoil := 0.0;
      }
    }
  }
}
