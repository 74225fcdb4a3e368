/**
 * The two shapes of the shared allocation (src/layout.rs; src/state.rs is the
 * older copy of the same code, with `MonoWgInner` for `MonoLayout` and
 * `SharedWgInner` for `SharedLayout`).
 *
 * `MonoLayout` holds the twin count, the state byte and the waker slot; each of
 * the three is an object of its own here (TwinCount, and SignalCell for the byte
 * and the slot), so that each component's methods frame only what they touch.
 * `SharedLayout` adds the clone count in front of an inner `MonoLayout`; the
 * accessors `Count` and `State` resolve to the inner fields, as `Borrow<MonoLayout>`
 * does, and its zero action is `send_done` on that same inner layout.
 */
module Layout {
  import opened Signal
  import opened Twin

  class MonoLayout {
    const twin: TwinCount
    const signal: SignalCell

    ghost predicate Valid()
      reads twin, signal
    {
      twin.Valid() && signal.Valid()
    }

    /** `MonoLayout::new`: twin count 2, state byte 0, empty slot. */
    constructor ()
      ensures Valid() && fresh(twin) && fresh(signal)
      ensures twin.count == 2 && twin.live == {First, Second} && twin.frees == 0
      ensures signal.state == 0 && signal.slot == None && signal.wakes == []
      ensures !signal.polling && !signal.dropped && !signal.IsDone()
    {
      twin := new TwinCount();
      signal := new SignalCell();
    }
  }

  class SharedLayout {
    const clones: CloneCount
    const inner: MonoLayout

    /** `TwinRefLayout::count`, through the inner layout. */
    function Count(): (r: TwinCount)
      ensures r == inner.twin
    {
      inner.twin
    }

    /** `state` and `slot`, through the inner layout. */
    function State(): (r: SignalCell)
      ensures r == inner.signal
    {
      inner.signal
    }

    /**
     * The clonable half stays alive exactly while clones remain, and DONE is set
     * exactly when the clone count has reached zero (the zero action is the only
     * `send_done` on this layout).
     */
    ghost predicate Valid()
      reads clones, inner.twin, inner.signal
    {
      && clones.Valid() && inner.Valid()
      && (Second in Count().live <==> clones.count != 0)
      && (State().View().done <==> clones.count == 0)
    }

    /** `SharedLayout::new`: clone count 1 in front of `MonoLayout::new()`. */
    constructor ()
      ensures Valid() && fresh(clones) && fresh(inner) && fresh(inner.twin) && fresh(inner.signal)
      ensures clones.count == 1 && clones.live == {0} && clones.leaked == 0
      ensures Count() == inner.twin && State() == inner.signal
      ensures Count().count == 2 && Count().live == {First, Second} && Count().frees == 0
      ensures State().state == 0 && State().slot == None && State().wakes == []
      ensures !State().polling && !State().dropped
    {
      clones := new CloneCount();
      inner := new MonoLayout();
    }

    /** `action_on_zero`: `send_done` on the inner layout, while the allocation is still alive. */
    method ActionOnZero()
      requires inner.Valid() && Count().live != {}
      modifies State()
      ensures inner.Valid()
      ensures State().View() == Apply(old(State().View()), SignalDone).after
      ensures State().wakes == old(State().wakes) + Apply(old(State().View()), SignalDone).woken
      ensures State().polling == old(State().polling) && State().dropped == old(State().dropped)
    {
      inner.signal.SendDone();
    }

    /**
     * `Drop for ClonableTwinRef`: release the clone count; the drop that takes it
     * from 1 to 0 runs the zero action and only then, through its `DropGuard`,
     * releases the clonable half, which frees the allocation if the waiter is gone.
     */
    method DropClonable(ghost id: nat)
      requires Valid() && id in clones.live
      modifies clones, inner.twin, inner.signal
      ensures Valid()
      ensures clones.live == old(clones.live) - {id} && clones.leaked == old(clones.leaked)
      ensures var last := old(clones.count) == 1;
        && (last <==> clones.live == {} && clones.leaked == 0)
        && (last ==> State().View() == Apply(old(State().View()), SignalDone).after)
        && (last ==> State().wakes == old(State().wakes) + Apply(old(State().View()), SignalDone).woken)
        && (last ==> Count().live == old(Count().live) - {Second})
        && (!last ==> State().View() == old(State().View()) && State().wakes == old(State().wakes))
        && (!last ==> Count().live == old(Count().live) && Count().frees == old(Count().frees))
      ensures State().polling == old(State().polling) && State().dropped == old(State().dropped)
    {
      var last := clones.Release(id);
      if last {
        ActionOnZero();
        inner.twin.DropTwinRef(Second);
      }
    }
  }
}
