/**
 * Whole-program runs of the wait groups, one per behaviour the crate promises in
 * its unit tests (src/tests/default/base.rs) and in its documentation examples
 * (src/group.rs).  Each run builds a fresh group, drives it one call at a time,
 * and states what the calls return and which tasks were woken.  A waker for task
 * t is counted by the occurrences of t in the wake log.
 */
module Scenarios {
  import opened Signal
  import opened Twin
  import opened Layout
  import opened Group

  /** Poll, release the only handle, poll again: Pending, then Ready, and one wake. */
  method WaitGroupDone(w: Waker) returns (first: Poll, second: Poll, ghost woken: seq<Task>)
    ensures first == Pending && second == Ready
    ensures woken == [w.task]
  {
    var wg, handle := NewWaitGroup();
    first := wg.Poll(w);
    handle.Done();
    second := wg.Poll(w);
    woken := wg.layout.State().wakes;
  }

  /**
   * Two handles: the poll stays Pending until the second release, whichever of
   * the two is released first, and the waiter is woken exactly once.
   */
  method WaitGroupDoneTwice(w: Waker, cloneFirst: bool) returns (polls: seq<Poll>, ghost woken: seq<Task>)
    ensures polls == [Pending, Pending, Ready]
    ensures woken == [w.task]
  {
    var wg, original := NewWaitGroup();
    var r := original.Clone();
    var copy := r.value;
    var p1 := wg.Poll(w);
    if cloneFirst {
      copy.Done();
    } else {
      original.Done();
    }
    var p2 := wg.Poll(w);
    if cloneFirst {
      original.Done();
    } else {
      copy.Done();
    }
    var p3 := wg.Poll(w);
    polls := [p1, p2, p3];
    woken := wg.layout.State().wakes;
  }

  /** The mono group: Pending, release, Ready, one wake. */
  method MonoWaitGroupDone(w: Waker) returns (first: Poll, second: Poll, ghost woken: seq<Task>)
    ensures first == Pending && second == Ready
    ensures woken == [w.task]
  {
    var wg, handle := NewMonoWaitGroup();
    first := wg.Poll(w);
    handle.Done();
    second := wg.Poll(w);
    woken := wg.layout.signal.wakes;
  }

  /** Releasing before the first poll: the poll is Ready at once and nobody is woken. */
  method SendBeforePoll(w: Waker) returns (p: Poll, ghost woken: seq<Task>)
    ensures p == Ready && woken == []
  {
    var wg, handle := NewWaitGroup();
    handle.Done();
    p := wg.Poll(w);
    woken := wg.layout.State().wakes;
  }

  /** The same for the mono group. */
  method MonoSendBeforePoll(w: Waker) returns (p: Poll, ghost woken: seq<Task>)
    ensures p == Ready && woken == []
  {
    var wg, handle := NewMonoWaitGroup();
    handle.Done();
    p := wg.Poll(w);
    woken := wg.layout.signal.wakes;
  }

  /**
   * Dropping the group before the release: the last owner frees the allocation,
   * once, after both counts have reached zero, and nobody is woken.
   */
  method DropBeforeSend() returns (clones: Usize, twin: U8, ghost frees: nat, ghost woken: seq<Task>)
    ensures clones == 0 && twin == 0 && frees == 1 && woken == []
  {
    var wg, handle := NewWaitGroup();
    wg.Drop();
    assert wg.layout.Count().frees == 0;
    handle.Done();
    clones := wg.layout.clones.count;
    twin := wg.layout.Count().count;
    frees := wg.layout.Count().frees;
    woken := wg.layout.State().wakes;
  }

  /** The same for the mono group. */
  method MonoDropBeforeSend() returns (twin: U8, ghost frees: nat, ghost woken: seq<Task>)
    ensures twin == 0 && frees == 1 && woken == []
  {
    var wg, handle := NewMonoWaitGroup();
    wg.Drop();
    assert wg.layout.twin.frees == 0;
    handle.Done();
    twin := wg.layout.twin.count;
    frees := wg.layout.twin.frees;
    woken := wg.layout.signal.wakes;
  }

  /**
   * Polled by task a, then by task b: the stored waker is replaced, so the
   * release wakes b once and a never; later polls are Ready and wake nobody.
   */
  method PollByOthers(a: Waker, b: Waker) returns (polls: seq<Poll>, ghost woken: seq<Task>)
    requires a.task != b.task
    ensures polls == [Pending, Pending, Ready, Ready]
    ensures woken == [b.task] && a.task !in woken
  {
    var wg, handle := NewWaitGroup();
    var p1 := wg.Poll(a);
    var p2 := wg.Poll(b);
    handle.Done();
    assert wg.layout.State().wakes == [b.task];
    var p3 := wg.Poll(b);
    var p4 := wg.Poll(b);
    polls := [p1, p2, p3, p4];
    woken := wg.layout.State().wakes;
  }

  /** Dropping a polled group before the release: its stored waker is discarded and never woken. */
  method DropEarly(w: Waker) returns (p: Poll, ghost woken: seq<Task>, ghost frees: nat)
    ensures p == Pending && woken == [] && frees == 1
  {
    var wg, handle := NewWaitGroup();
    p := wg.Poll(w);
    wg.Drop();
    handle.Done();
    woken := wg.layout.State().wakes;
    frees := wg.layout.Count().frees;
  }

  /**
   * Not done before the release; done after it; polling again after completion
   * stays Ready and keeps reporting done.
   */
  method RePollAfterDone(w: Waker) returns (before: bool, first: Poll, afterFirst: bool, second: Poll, afterSecond: bool)
    ensures !before && first == Ready && afterFirst && second == Ready && afterSecond
  {
    var wg, handle := NewWaitGroup();
    before := wg.IsDone();
    handle.Done();
    first := wg.Poll(w);
    afterFirst := wg.IsDone();
    second := wg.Poll(w);
    afterSecond := wg.IsDone();
  }

  /** The same for the mono group. */
  method MonoRePollAfterDone(w: Waker) returns (before: bool, first: Poll, afterFirst: bool, second: Poll, afterSecond: bool)
    ensures !before && first == Ready && afterFirst && second == Ready && afterSecond
  {
    var wg, handle := NewMonoWaitGroup();
    before := wg.IsDone();
    handle.Done();
    first := wg.Poll(w);
    afterFirst := wg.IsDone();
    second := wg.Poll(w);
    afterSecond := wg.IsDone();
  }

  /**
   * A clonable twin with one extra clone: dropping the extra clone runs no action;
   * dropping the last clone runs the zero action (DONE is set) and releases the
   * clonable half; dropping the other half then frees the allocation, once.
   */
  method ClonableTwin() returns (doneAfterExtra: bool, doneAfterLast: bool, twinAfterLast: U8, twinAfterAll: U8, ghost frees: nat)
    ensures !doneAfterExtra && doneAfterLast && twinAfterLast == 1 && twinAfterAll == 0 && frees == 1
  {
    var l := new SharedLayout();
    var ok;
    ghost var extra;
    ok, extra := l.clones.Clone(0);
    l.DropClonable(extra);
    doneAfterExtra := l.State().IsDone();
    l.DropClonable(0);
    doneAfterLast := l.State().IsDone();
    twinAfterLast := l.Count().count;
    assert l.Count().frees == 0;
    l.inner.twin.DropTwinRef(First);
    twinAfterAll := l.Count().count;
    frees := l.Count().frees;
  }
}
