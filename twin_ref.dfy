/**
 * The two-owner reference count and the clone counter layered on one of its
 * halves (src/twin_ref.rs).
 *
 * A twin allocation is shared by exactly two halves, `First` (the `dup()` that
 * `new_mono`/`new_clonable` return first) and `Second`; a one-byte count starts
 * at 2 and the allocation is freed by the drop that takes it from 1 to 0.  On
 * the `Second` half sits a word-sized clone count that starts at 1; the clone
 * drop that takes it from 1 to 0 runs the layout's zero action and only then
 * releases the half (that composition is in the Layout module, which knows the
 * action).  Box allocation is not modelled: a ghost count of frees stands for it.
 */
module Twin {

  const U8_MODULUS: int := 0x100
  const USIZE_MODULUS: int := 0x1_0000_0000_0000_0000
  const USIZE_MAX: int := USIZE_MODULUS - 1

  /** `u8`, the width of the twin count. */
  type U8 = x: int | 0 <= x < U8_MODULUS
  /** `usize` on a 64-bit target, the width of the clone count. */
  type Usize = x: int | 0 <= x < USIZE_MODULUS

  /** The two owners of a twin allocation. */
  datatype Half = First | Second

  /** A set of halves is empty exactly when neither half is in it. */
  lemma NoHalfLeft(s: set<Half>)
    ensures s == {} <==> First !in s && Second !in s
  {
    if s != {} {
      var h :| h in s;
      assert h == First || h == Second;
    }
  }

  /** What `fetch_sub(1)` leaves behind, and whether this call saw the 1 -> 0 transition. */
  datatype Release = Release(next: int, last: bool)

  /** `fetch_sub(1)` on an unsigned counter with `modulus` values, wrapping below zero. */
  function ReleaseStep(count: int, modulus: int): (r: Release)
    requires 0 <= count < modulus
    ensures 0 <= r.next < modulus
    ensures (r.next + 1) % modulus == count
    ensures r.last ==> r.next == 0
  {
    Release(if count == 0 then modulus - 1 else count - 1, count == 1)
  }

  /** The count after `k` successive releases, and how many of them saw 1 -> 0. */
  datatype Tally = Tally(count: int, zeroes: nat)

  function ReleaseMany(count: int, k: nat, modulus: int): Tally
    requires 0 <= count < modulus
    decreases k
  {
    if k == 0 then Tally(count, 0)
    else
      var r := ReleaseStep(count, modulus);
      var t := ReleaseMany(r.next, k - 1, modulus);
      Tally(t.count, t.zeroes + if r.last then 1 else 0)
  }

  /**
   * Releasing k of n owners: fewer than n never reach zero; the n-th reaches it
   * exactly once.  For the twin count (n = 2) this is "dropping one half never
   * frees, dropping both frees once"; for the clone count it is "the action runs
   * only on the last clone's drop".
   */
  lemma {:induction false} ZeroTransitionExactlyOnce(n: int, k: nat, modulus: int)
    requires 1 <= n < modulus && k <= n
    ensures ReleaseMany(n, k, modulus) == Tally(n - k, if k == n then 1 else 0)
    decreases k
  {
    if k > 0 {
      if n > 1 {
        ZeroTransitionExactlyOnce(n - 1, k - 1, modulus);
      }
    }
  }

  /** What `fetch_add(1)` leaves behind, and whether the overflow guard fires. */
  datatype Increment = Increment(next: Usize, overflow: bool)

  /**
   * `Clone for ClonableTwinRef`: add 1 (wrapping) and panic when the count before
   * the increment is above `usize::MAX / 2`; the increment has happened either way.
   */
  function CloneStep(count: Usize): (r: Increment)
    ensures (r.next + USIZE_MAX) % USIZE_MODULUS == count
    ensures !r.overflow ==> 0 < r.next <= USIZE_MAX / 2 + 1
  {
    Increment((count + 1) % USIZE_MODULUS, count > USIZE_MAX / 2)
  }

  /**
   * The wrapping increment of a clone followed by the wrapping decrement of a
   * clone's drop gives the count back, for every `usize` count, including counts
   * above `usize::MAX / 2` and the wrap at `usize::MAX`.  This is arithmetic only:
   * a clone that panicked returns no handle, so its increment is never released
   * (see `CloneCount.leaked`).  That decrement sees 1 -> 0 only if the count was 0
   * before the increment, which no live clone allows.
   */
  lemma CloneThenRelease(count: Usize)
    ensures ReleaseStep(CloneStep(count).next, USIZE_MODULUS).next == count
    ensures ReleaseStep(CloneStep(count).next, USIZE_MODULUS).last <==> count == 0
  {
  }

  /** The twin count of an allocation, with the halves still alive and the frees so far. */
  class TwinCount {
    var count: U8
    ghost var live: set<Half>
    ghost var frees: nat

    /** The count is the number of live halves; the allocation is freed once, when none is left. */
    ghost predicate Valid()
      reads this
    {
      count == |live| && frees == (if live == {} then 1 else 0)
    }

    /** The count starts at 2, one for each half. */
    constructor ()
      ensures Valid() && count == 2 && live == {First, Second} && frees == 0
    {
      count := 2;
      live := {First, Second};
      frees := 0;
    }

    /** `drop_twin_ref`: decrement; free only if the count before was 1. */
    method DropTwinRef(h: Half)
      requires Valid() && h in live
      modifies this
      ensures Valid()
      ensures count == ReleaseStep(old(count), U8_MODULUS).next
      ensures live == old(live) - {h}
      ensures frees == old(frees) + (if ReleaseStep(old(count), U8_MODULUS).last then 1 else 0)
      ensures frees <= 1
    {
      var prev := count;
      count := (count - 1) % U8_MODULUS;
      live := live - {h};
      if prev != 1 {
        return;
      }
      // acquire fence, then Box::from_raw: the allocation is freed
      frees := frees + 1;
    }
  }

  /**
   * The clone count: the ids of the live clones, and `leaked`, the increments made
   * by clones whose overflow guard panicked (they return no handle to give back).
   */
  class CloneCount {
    var count: Usize
    ghost var live: set<nat>
    ghost var nextId: nat
    ghost var leaked: nat
    ghost var zeroes: nat

    /** The count is live clones plus leaked increments; it reaches zero once, and stays there. */
    ghost predicate Valid()
      reads this
    {
      && count == |live| + leaked
      && (forall id | id in live :: id < nextId)
      && zeroes == (if count == 0 then 1 else 0)
    }

    /** The count starts at 1, for the first clonable handle (id 0). */
    constructor ()
      ensures Valid() && count == 1 && live == {0} && nextId == 1 && leaked == 0 && zeroes == 0
    {
      count := 1;
      live := {0};
      nextId := 1;
      leaked := 0;
      zeroes := 0;
    }

    /**
     * `clone`: add 1 and, unless the guard panics, hand out a new clone.  Only a live
     * clone can be cloned, so the count never rises from zero.
     */
    method Clone(ghost from: nat) returns (ok: bool, ghost id: nat)
      requires Valid() && from in live && count < USIZE_MAX
      modifies this
      ensures Valid()
      ensures count == CloneStep(old(count)).next && count == old(count) + 1
      ensures ok <==> !CloneStep(old(count)).overflow
      ensures ok ==> id !in old(live) && live == old(live) + {id} && leaked == old(leaked)
      ensures !ok ==> live == old(live) && leaked == old(leaked) + 1
      ensures zeroes == old(zeroes)
    {
      var oldSize := count;
      count := (count + 1) % USIZE_MODULUS;
      if oldSize > USIZE_MAX / 2 {
        // panic!("reference count overflow"), after the increment
        leaked := leaked + 1;
        return false, 0;
      }
      id := nextId;
      nextId := nextId + 1;
      live := live + {id};
      ok := true;
    }

    /** The counting half of a clone's `drop`: decrement; `last` when the count before was 1. */
    method Release(ghost id: nat) returns (last: bool)
      requires Valid() && id in live
      modifies this
      ensures Valid()
      ensures live == old(live) - {id} && leaked == old(leaked) && nextId == old(nextId)
      ensures count == ReleaseStep(old(count), USIZE_MODULUS).next
      ensures last == ReleaseStep(old(count), USIZE_MODULUS).last
      ensures last <==> live == {} && leaked == 0
      ensures zeroes <= 1
    {
      var prev := count;
      count := (count - 1) % USIZE_MODULUS;
      live := live - {id};
      last := prev == 1;
      if last {
        zeroes := zeroes + 1;
      }
    }
  }

  /** `test_twin_ref_mono`: dropping one half never frees, dropping the other frees once, in either order. */
  method TwinScenario(firstDropped: Half) returns (afterOne: U8, afterBoth: U8, ghost freesAfterOne: nat, ghost freesAfterBoth: nat)
    ensures afterOne == 1 && afterBoth == 0
    ensures freesAfterOne == 0 && freesAfterBoth == 1
  {
    var twin := new TwinCount();
    var other := if firstDropped == First then Second else First;
    twin.DropTwinRef(firstDropped);
    afterOne := twin.count;
    freesAfterOne := twin.frees;
    twin.DropTwinRef(other);
    afterBoth := twin.count;
    freesAfterBoth := twin.frees;
  }
}
