/**
 * The public wait groups (src/group.rs; src/wait_group.rs is the older copy of
 * the same API).
 *
 * `WaitGroup` is the `First` half of a `SharedLayout`, and its workers are the
 * clones of the `Second` half; `MonoWaitGroup` and its one `MonoWorkerHandle`
 * are the two halves of a `MonoLayout` (the `compact-mono` choice of
 * `MonoInner`).  Dropping the waiter runs the signal's waiter drop and then
 * releases its half; the last worker's drop runs `send_done` and then releases
 * the other half.
 */
module Group {
  import opened Signal
  import opened Twin
  import opened Layout

  /**
   * The clonable wait group's invariant: the layout's own, no poll in progress
   * between calls, and the waiter's half alive exactly while the waiter is not dropped.
   */
  ghost predicate GroupValid(l: SharedLayout)
    reads l.clones, l.inner.twin, l.inner.signal
  {
    && l.Valid()
    && !l.State().polling
    && (First in l.Count().live <==> !l.State().dropped)
  }

  /** The same for the mono wait group: DONE is set exactly when the worker's half is gone. */
  ghost predicate MonoGroupValid(l: MonoLayout)
    reads l.twin, l.signal
  {
    && l.Valid()
    && !l.signal.polling
    && (First in l.twin.live <==> !l.signal.dropped)
    && (l.signal.View().done <==> Second !in l.twin.live)
  }

  /** `WaitGroup`: the waiting half of a shared layout. */
  datatype WaitGroup = WaitGroup(layout: SharedLayout) {

    /** `is_done`: true exactly when every worker handle has been dropped. */
    function IsDone(): (r: bool)
      requires GroupValid(layout) && First in layout.Count().live
      reads layout.clones, layout.inner.twin, layout.inner.signal
      ensures r <==> layout.clones.live == {} && layout.clones.leaked == 0
      ensures r <==> Second !in layout.Count().live
    {
      layout.State().IsDone()
    }

    /** `poll`: Ready exactly when every worker handle has been dropped. */
    method Poll(w: Waker) returns (p: Poll)
      requires GroupValid(layout) && First in layout.Count().live
      modifies layout.inner.signal
      ensures GroupValid(layout)
      ensures layout.State().View() == PollOnce(old(layout.State().View()), w).after
      ensures Some(p) == PollOnce(old(layout.State().View()), w).poll
      ensures layout.State().wakes == old(layout.State().wakes)
      ensures p == Ready <==> layout.clones.live == {} && layout.clones.leaked == 0
    {
      p := layout.inner.signal.Poll(w);
    }

    /** Dropping the waiter: the signal's waiter drop, then the release of its half. */
    method Drop()
      requires GroupValid(layout) && First in layout.Count().live
      modifies layout.inner.signal, layout.inner.twin
      ensures GroupValid(layout)
      ensures layout.Count().live == old(layout.Count().live) - {First}
      ensures layout.Count().frees == (if Second in old(layout.Count().live) then 0 else 1)
      ensures layout.State().View() == Apply(old(layout.State().View()), WaiterDrop).after
      ensures layout.State().wakes == old(layout.State().wakes)
    {
      layout.inner.signal.Drop();
      layout.inner.twin.DropTwinRef(First);
      NoHalfLeft(layout.inner.twin.live);
    }
  }

  /** `WorkerHandle`: one clone of the clonable half; `id` tells the clones apart. */
  class WorkerHandle {
    const layout: SharedLayout
    ghost const id: nat

    constructor (layout: SharedLayout, ghost id: nat)
      ensures this.layout == layout && this.id == id
    {
      this.layout := layout;
      this.id := id;
    }

    /** This handle has not been dropped. */
    ghost predicate Live()
      reads layout.clones
    {
      id in layout.clones.live
    }

    /** `clone`: one more handle on the same layout, or a panic (None) past `usize::MAX / 2`. */
    method Clone() returns (r: Option<WorkerHandle>)
      requires GroupValid(layout) && Live() && layout.clones.count < USIZE_MAX
      modifies layout.clones
      ensures GroupValid(layout)
      ensures layout.clones.count == old(layout.clones.count) + 1
      ensures r.Some? <==> old(layout.clones.count) <= USIZE_MAX / 2
      ensures r.Some? ==> && fresh(r.value) && r.value.layout == layout
                          && r.value.id !in old(layout.clones.live)
                          && layout.clones.live == old(layout.clones.live) + {r.value.id}
                          && layout.clones.leaked == old(layout.clones.leaked)
      ensures r.None? ==> && layout.clones.live == old(layout.clones.live)
                          && layout.clones.leaked == old(layout.clones.leaked) + 1
    {
      var ok;
      ghost var newId;
      ok, newId := layout.clones.Clone(id);
      if ok {
        var h := new WorkerHandle(layout, newId);
        r := Some(h);
      } else {
        r := None;
      }
    }

    /** Dropping a handle: the last one signals DONE and releases the clonable half. */
    method Drop()
      requires GroupValid(layout) && Live()
      modifies layout.clones, layout.inner.twin, layout.inner.signal
      ensures GroupValid(layout)
      ensures layout.clones.live == old(layout.clones.live) - {id}
      ensures layout.clones.leaked == old(layout.clones.leaked)
      ensures var last := layout.clones.live == {} && layout.clones.leaked == 0;
        && (last ==> SignalOf(layout) == Apply(old(SignalOf(layout)), SignalDone).after)
        && (last ==> layout.State().wakes == old(layout.State().wakes) + Apply(old(SignalOf(layout)), SignalDone).woken)
        && (last ==> layout.Count().live == old(layout.Count().live) - {Second})
        && (!last ==> SignalOf(layout) == old(SignalOf(layout)) && layout.State().wakes == old(layout.State().wakes))
        && (!last ==> layout.Count().live == old(layout.Count().live))
    {
      layout.DropClonable(id);
    }

    /** `done`: the same as dropping the handle. */
    method Done()
      requires GroupValid(layout) && Live()
      modifies layout.clones, layout.inner.twin, layout.inner.signal
      ensures GroupValid(layout)
      ensures layout.clones.live == old(layout.clones.live) - {id}
      ensures layout.clones.leaked == old(layout.clones.leaked)
      ensures var last := layout.clones.live == {} && layout.clones.leaked == 0;
        && (last ==> SignalOf(layout) == Apply(old(SignalOf(layout)), SignalDone).after)
        && (last ==> layout.State().wakes == old(layout.State().wakes) + Apply(old(SignalOf(layout)), SignalDone).woken)
        && (last ==> layout.Count().live == old(layout.Count().live) - {Second})
        && (!last ==> SignalOf(layout) == old(SignalOf(layout)) && layout.State().wakes == old(layout.State().wakes))
        && (!last ==> layout.Count().live == old(layout.Count().live))
    {
      Drop();
    }
  }

  /** The signal of a shared layout, as the protocol sees it. */
  function SignalOf(l: SharedLayout): SignalView
    reads l.inner.signal
  {
    l.State().View()
  }

  /** `WaitGroup::new`: a fresh `SharedLayout` split into the waiter and one worker handle. */
  method NewWaitGroup() returns (wg: WaitGroup, handle: WorkerHandle)
    ensures fresh(wg.layout) && fresh(wg.layout.clones) && fresh(wg.layout.inner)
    ensures fresh(wg.layout.inner.twin) && fresh(wg.layout.inner.signal)
    ensures GroupValid(wg.layout) && handle.layout == wg.layout && handle.Live()
    ensures wg.layout.clones.live == {handle.id} && wg.layout.clones.leaked == 0
    ensures wg.layout.clones.count == 1
    ensures wg.layout.Count().live == {First, Second} && wg.layout.Count().frees == 0
    ensures SignalOf(wg.layout) == SignalView(false, false, None) && wg.layout.State().wakes == []
    ensures !wg.IsDone()
  {
    var inner := new SharedLayout();
    wg := WaitGroup(inner);
    handle := new WorkerHandle(inner, 0);
  }

  /** `MonoWaitGroup`: the waiting half of a mono layout. */
  datatype MonoWaitGroup = MonoWaitGroup(layout: MonoLayout) {

    /** `is_done`: true exactly when the worker handle has been dropped. */
    function IsDone(): (r: bool)
      requires MonoGroupValid(layout) && First in layout.twin.live
      reads layout.twin, layout.signal
      ensures r <==> Second !in layout.twin.live
    {
      layout.signal.IsDone()
    }

    /** `poll`: Ready exactly when the worker handle has been dropped. */
    method Poll(w: Waker) returns (p: Poll)
      requires MonoGroupValid(layout) && First in layout.twin.live
      modifies layout.signal
      ensures MonoGroupValid(layout)
      ensures layout.signal.View() == PollOnce(old(layout.signal.View()), w).after
      ensures Some(p) == PollOnce(old(layout.signal.View()), w).poll
      ensures layout.signal.wakes == old(layout.signal.wakes)
      ensures p == Ready <==> Second !in layout.twin.live
    {
      p := layout.signal.Poll(w);
    }

    /** Dropping the waiter: the signal's waiter drop, then the release of its half. */
    method Drop()
      requires MonoGroupValid(layout) && First in layout.twin.live
      modifies layout.signal, layout.twin
      ensures MonoGroupValid(layout)
      ensures layout.twin.live == old(layout.twin.live) - {First}
      ensures layout.twin.frees == (if Second in old(layout.twin.live) then 0 else 1)
      ensures layout.signal.View() == Apply(old(layout.signal.View()), WaiterDrop).after
      ensures layout.signal.wakes == old(layout.signal.wakes)
    {
      layout.signal.Drop();
      layout.twin.DropTwinRef(First);
      NoHalfLeft(layout.twin.live);
    }
  }

  /** `MonoWorkerHandle`: the worker's half of a mono layout. */
  datatype MonoWorkerHandle = MonoWorkerHandle(layout: MonoLayout) {

    /** `Drop for MonoWorkerHandle`: `send_done`, then the release of its half. */
    method Drop()
      requires MonoGroupValid(layout) && Second in layout.twin.live
      modifies layout.signal, layout.twin
      ensures MonoGroupValid(layout)
      ensures layout.twin.live == old(layout.twin.live) - {Second}
      ensures layout.twin.frees == (if First in old(layout.twin.live) then 0 else 1)
      ensures layout.signal.View() == Apply(old(layout.signal.View()), SignalDone).after
      ensures layout.signal.wakes == old(layout.signal.wakes) + Apply(old(layout.signal.View()), SignalDone).woken
    {
      layout.signal.SendDone();
      layout.twin.DropTwinRef(Second);
      NoHalfLeft(layout.twin.live);
    }

    /** `done`: the same as dropping the handle. */
    method Done()
      requires MonoGroupValid(layout) && Second in layout.twin.live
      modifies layout.signal, layout.twin
      ensures MonoGroupValid(layout)
      ensures layout.twin.live == old(layout.twin.live) - {Second}
      ensures layout.twin.frees == (if First in old(layout.twin.live) then 0 else 1)
      ensures layout.signal.View() == Apply(old(layout.signal.View()), SignalDone).after
      ensures layout.signal.wakes == old(layout.signal.wakes) + Apply(old(layout.signal.View()), SignalDone).woken
    {
      Drop();
    }
  }

  /** `MonoWaitGroup::new`: a fresh `MonoLayout` split with `new_mono` into the waiter and the worker. */
  method NewMonoWaitGroup() returns (wg: MonoWaitGroup, handle: MonoWorkerHandle)
    ensures fresh(wg.layout) && fresh(wg.layout.twin) && fresh(wg.layout.signal)
    ensures handle.layout == wg.layout && MonoGroupValid(wg.layout)
    ensures wg.layout.twin.live == {First, Second} && wg.layout.twin.frees == 0
    ensures wg.layout.signal.View() == SignalView(false, false, None) && wg.layout.signal.wakes == []
    ensures !wg.IsDone()
  {
    var inner := new MonoLayout();
    wg := MonoWaitGroup(inner);
    handle := MonoWorkerHandle(inner);
  }
}
