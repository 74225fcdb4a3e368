/**
 * The completion signal of the wait group (src/core_impl.rs): a state byte with a
 * DONE bit and a LOCK bit, and a slot holding at most one waker.
 *
 * Every atomic read-modify-write is one indivisible step.  The waiter's poll is
 * split into two steps, PollBegin (take LOCK, store the waker) and PollEnd
 * (release LOCK, look again for DONE), so that a SendDone can land while the
 * poll holds LOCK, which is the one race the protocol has to resolve.
 *
 * The first half of the module is the protocol on values (SignalView, Apply,
 * Run) with the lemmas about it; the second half is the class SignalCell that
 * works on the byte itself and is proved to follow Apply step by step.
 */
module Signal {

  /** The work is finished; set once and never cleared. */
  const DONE: bv8 := 0x01
  /** Exclusive access to the waker slot. */
  const LOCK: bv8 := 0x02

  datatype Option<T> = None | Some(value: T)

  /** `core::task::Poll<()>`. */
  datatype Poll = Ready | Pending

  /** The task a waker wakes. */
  type Task = nat

  /** A waker handle: the task it wakes, and which clone of that task's waker it is. */
  datatype Waker = Waker(task: Task, copy: nat)

  /** `Waker::will_wake`: both handles wake the same task. */
  predicate WillWake(stored: Waker, w: Waker)
  {
    stored.task == w.task
  }

  /** The signal as the protocol sees it: the two bits of the state byte and the slot. */
  datatype SignalView = SignalView(done: bool, locked: bool, slot: Option<Waker>)

  /** The indivisible steps: `send_done`, the two halves of the waiter's `poll`, and the waiter's `drop`. */
  datatype Op = SignalDone | PollStart(waker: Waker) | PollFinish | WaiterDrop

  /**
   * What a step leaves behind: the new view, the tasks it woke, and what the poll
   * returned (PollStart returns Ready when it stops early and nothing when the poll
   * goes on to PollFinish; PollFinish returns Ready or Pending).
   */
  datatype Step = Step(after: SignalView, woken: seq<Task>, poll: Option<Poll>)

  /** The wakes delivered by waking what was taken out of the slot. */
  function Woken(slot: Option<Waker>): seq<Task>
  {
    if slot.Some? then [slot.value.task] else []
  }

  /** The slot after the waiter registers `w`: a stored waker for the same task is kept. */
  function Register(slot: Option<Waker>, w: Waker): (r: Option<Waker>)
    ensures r.Some? && r.value.task == w.task
    ensures slot.Some? && WillWake(slot.value, w) ==> r == slot
  {
    if slot.Some? && WillWake(slot.value, w) then slot else Some(w)
  }

  /** One step of the protocol. */
  function Apply(v: SignalView, op: Op): (r: Step)
    ensures r.after.done <==> v.done || op == SignalDone
    ensures Inv(v) ==> Inv(r.after)
    ensures |r.woken| <= 1
    ensures r.woken != [] ==> op == SignalDone && !v.locked && v.slot.Some? && r.woken == [v.slot.value.task]
    ensures r.poll.Some? <==> op == PollFinish || (op.PollStart? && v.done)
  {
    match op
    case SignalDone =>
      // fetch_or(DONE | LOCK); only a signaller that found LOCK free drains the slot
      if v.locked then Step(SignalView(true, true, v.slot), [], None)
      else Step(SignalView(true, true, None), Woken(v.slot), None)
    case PollStart(w) =>
      // fetch_or(LOCK); stop early when DONE was already set
      if v.done then Step(v.(locked := true), [], Some(Ready))
      else Step(SignalView(false, true, Register(v.slot, w)), [], None)
    case PollFinish =>
      // fetch_and(!LOCK); when DONE raced in, drain without waking and set LOCK again
      if v.done then Step(SignalView(true, true, None), [], Some(Ready))
      else Step(v.(locked := false), [], Some(Pending))
    case WaiterDrop =>
      // fetch_or(LOCK); discard the stored waker only when LOCK was free
      Step(SignalView(v.done, true, if v.locked then v.slot else None), [], None)
  }

  /** A whole poll with no other step in between. */
  function PollOnce(v: SignalView, w: Waker): (r: Step)
    ensures r.poll.Some? && r.woken == [] && r.after.done == v.done
    ensures r.poll == Some(Ready) <==> v.done
    ensures !v.done ==> !r.after.locked && r.after.slot.Some? && r.after.slot.value.task == w.task
  {
    var begin := Apply(v, PollStart(w));
    if begin.poll.Some? then begin else Apply(begin.after, PollFinish)
  }

  /** A sequence of steps: the final view, every wake in order, and the last step's poll result. */
  function Run(v: SignalView, ops: seq<Op>): (r: Step)
    ensures ops != [] && ops[|ops| - 1] == PollFinish ==> r.poll.Some?
    ensures ops != [] && ops[|ops| - 1] != PollFinish && !ops[|ops| - 1].PollStart? ==> r.poll == None
    decreases |ops|
  {
    if ops == [] then Step(v, [], None)
    else
      var first := Apply(v, ops[0]);
      var rest := Run(first.after, ops[1..]);
      Step(rest.after, first.woken + rest.woken, if |ops| == 1 then first.poll else rest.poll)
  }

  /** DONE is never seen without LOCK. */
  predicate Inv(v: SignalView)
  {
    v.done ==> v.locked
  }

  /** `send_done` with LOCK free: both bits set, slot emptied, the stored waker woken once. */
  lemma SendDoneWhenFree(v: SignalView)
    requires !v.locked
    ensures var s := Apply(v, SignalDone);
      && s.after.done && s.after.locked && s.after.slot == None
      && (v.slot.Some? ==> s.woken == [v.slot.value.task])
      && (v.slot == None ==> s.woken == [])
  {
  }

  /** `send_done` while a poll holds LOCK: the slot is left alone and nobody is woken. */
  lemma SendDoneWhileLocked(v: SignalView)
    requires v.locked
    ensures var s := Apply(v, SignalDone);
      s.after.done && s.after.locked && s.after.slot == v.slot && s.woken == []
  {
  }

  /** Polling once DONE is set is Ready at once, leaves the slot untouched and wakes nobody. */
  lemma PollWhenDone(v: SignalView, w: Waker)
    requires v.done
    ensures var s := PollOnce(v, w);
      s.poll == Some(Ready) && s.after.done && s.after.slot == v.slot && s.woken == []
  {
  }

  /** A poll before DONE stores a waker for the polling task, releases LOCK and is Pending. */
  lemma PollWhenNotDone(v: SignalView, w: Waker)
    requires !v.done
    ensures var s := PollOnce(v, w);
      && s.poll == Some(Pending) && !s.after.done && !s.after.locked && s.woken == []
      && s.after.slot.Some? && s.after.slot.value.task == w.task
      && (v.slot.Some? && WillWake(v.slot.value, w) ==> s.after.slot == v.slot)
  {
  }

  /** No wake is lost: after a Pending poll, `send_done` wakes the task that polled. */
  lemma PendingPollIsWoken(v: SignalView, w: Waker)
    requires !v.done
    ensures var p := PollOnce(v, w);
      p.poll == Some(Pending) && Apply(p.after, SignalDone).woken == [w.task]
  {
  }

  /** Polling with B after A leaves B's task registered: `send_done` wakes B and never A. */
  lemma LaterWakerReplacesEarlier(v: SignalView, a: Waker, b: Waker)
    requires !v.done && a.task != b.task
    ensures var pa := PollOnce(v, a);
      var pb := PollOnce(pa.after, b);
      var s := Apply(pb.after, SignalDone);
      pa.poll == Some(Pending) && pb.poll == Some(Pending) && s.woken == [b.task]
  {
  }

  /**
   * The race: `send_done` lands between the two halves of a poll.  It leaves the
   * slot alone; PollEnd sees DONE, drains the slot without waking, sets LOCK again
   * and returns Ready.  Nobody is woken.
   */
  lemma RaceResolvesWithoutWake(v: SignalView, w: Waker)
    requires !v.done
    ensures var b := Apply(v, PollStart(w));
      var d := Apply(b.after, SignalDone);
      var e := Apply(d.after, PollFinish);
      && b.poll == None && d.woken == [] && e.woken == []
      && e.poll == Some(Ready) && e.after == SignalView(true, true, None)
  {
  }

  /** Dropping a pending waiter discards its waker; a later `send_done` finds LOCK set and wakes nobody. */
  lemma DroppedWaiterIsNotWoken(v: SignalView, w: Waker)
    requires !v.done
    ensures var p := PollOnce(v, w);
      var d := Apply(p.after, WaiterDrop);
      var s := Apply(d.after, SignalDone);
      p.poll == Some(Pending) && d.after.slot == None && s.woken == [] && s.after.slot == None
  {
  }

  /** DONE is never cleared, whatever steps follow. */
  lemma {:induction false} DoneNeverCleared(v: SignalView, ops: seq<Op>)
    requires v.done
    ensures Run(v, ops).after.done
    decreases |ops|
  {
    if ops != [] {
      DoneNeverCleared(Apply(v, ops[0]).after, ops[1..]);
    }
  }

  /** Every sequence of steps keeps Inv. */
  lemma {:induction false} InvPreserved(v: SignalView, ops: seq<Op>)
    requires Inv(v)
    ensures Inv(Run(v, ops).after)
    decreases |ops|
  {
    if ops != [] {
      InvPreserved(Apply(v, ops[0]).after, ops[1..]);
    }
  }

  /** At most one wake is ever delivered, and none at all once DONE is set. */
  lemma {:induction false} AtMostOneWake(v: SignalView, ops: seq<Op>)
    requires Inv(v)
    ensures |Run(v, ops).woken| <= 1
    ensures v.done ==> Run(v, ops).woken == []
    decreases |ops|
  {
    if ops != [] {
      var first := Apply(v, ops[0]);
      AtMostOneWake(first.after, ops[1..]);
    }
  }

  /** Once DONE is set and the slot drained, the slot stays empty: no waker is kept past completion. */
  lemma {:induction false} SlotStaysDrained(v: SignalView, ops: seq<Op>)
    requires Inv(v) && v.done && v.slot == None
    ensures Run(v, ops).after.slot == None
    decreases |ops|
  {
    if ops != [] {
      SlotStaysDrained(Apply(v, ops[0]).after, ops[1..]);
    }
  }

  /**
   * The signal's fields as they live in the shared allocation: the atomic state
   * byte and the waker slot.  `wakes` logs every `Waker::wake` in order; `polling`
   * holds between PollBegin and PollEnd; `dropped` records that the waiter is gone.
   */
  class SignalCell {
    var state: bv8
    var slot: Option<Waker>
    ghost var wakes: seq<Task>
    ghost var polling: bool
    ghost var dropped: bool

    /** The two flag bits of the byte, and the slot. */
    function View(): SignalView
      reads this
    {
      SignalView(state & DONE != 0, state & LOCK != 0, slot)
    }

    /**
     * LOCK is held during a poll and after DONE; outside a poll a held LOCK means the
     * slot is empty, and (before DONE) that the waiter has been dropped; at most one
     * wake, and none before DONE.
     */
    ghost predicate Valid()
      reads this
    {
      var v := View();
      && state & !(DONE | LOCK) == 0
      && Inv(v)
      && (polling ==> v.locked && v.slot.Some? && !dropped)
      && (v.locked && !polling ==> v.slot == None)
      && (v.locked && !polling && !v.done ==> dropped)
      && |wakes| <= 1
      && (!v.done ==> wakes == [])
    }

    /** A fresh signal: state byte 0 and an empty slot. */
    constructor ()
      ensures Valid()
      ensures state == 0 && slot == None && View() == SignalView(false, false, None)
      ensures wakes == [] && !polling && !dropped
    {
      state := 0;
      slot := None;
      wakes := [];
      polling := false;
      dropped := false;
    }

    /** `is_done`: reads DONE.  When it is set, LOCK is held and, outside a poll, the slot is empty. */
    function IsDone(): (r: bool)
      requires Valid()
      reads this
      ensures r <==> View().done
      ensures r ==> View().locked && (!polling ==> slot == None)
    {
      state & DONE != 0
    }

    /** `AtomicU8::fetch_or`: one indivisible step that returns the previous byte. */
    method FetchOr(bits: bv8) returns (prev: bv8)
      modifies this`state
      ensures prev == old(state) && state == old(state) | bits
    {
      prev := state;
      state := state | bits;
    }

    /** `AtomicU8::fetch_and`: one indivisible step that returns the previous byte. */
    method FetchAnd(bits: bv8) returns (prev: bv8)
      modifies this`state
      ensures prev == old(state) && state == old(state) & bits
    {
      prev := state;
      state := state & bits;
    }

    /** `Option::take` on the slot. */
    method TakeSlot() returns (taken: Option<Waker>)
      modifies this`slot
      ensures taken == old(slot) && slot == None
    {
      taken := slot;
      slot := None;
    }

    /** `send_done`: set DONE and LOCK; if LOCK was free, drain the slot and wake what was there. */
    method SendDone()
      requires Valid()
      modifies this
      ensures Valid()
      ensures View() == Apply(old(View()), SignalDone).after
      ensures wakes == old(wakes) + Apply(old(View()), SignalDone).woken
      ensures polling == old(polling) && dropped == old(dropped)
    {
      var prev := FetchOr(DONE | LOCK);
      if prev & LOCK == 0 {
        var taken := TakeSlot();
        if taken.Some? {
          wakes := wakes + [taken.value.task];
        }
      }
    }

    /**
     * The first half of `poll`: take LOCK; Ready at once if DONE was already set,
     * otherwise store the waker (keeping a stored one that wakes the same task).
     */
    method PollBegin(w: Waker) returns (early: Option<Poll>)
      requires Valid() && !polling && !dropped
      modifies this
      ensures Valid()
      ensures View() == Apply(old(View()), PollStart(w)).after
      ensures early == Apply(old(View()), PollStart(w)).poll
      ensures wakes == old(wakes) && !dropped
      ensures polling <==> early == None
    {
      var prev := FetchOr(LOCK);
      if prev & DONE != 0 {
        return Some(Ready);
      }
      // the waiter is the only party that takes LOCK without setting DONE
      assert prev & LOCK == 0;
      match slot {
        case Some(stored) =>
          if !WillWake(stored, w) {
            slot := Some(w);
          }
        case None =>
          slot := Some(w);
      }
      polling := true;
      early := None;
    }

    /**
     * The second half of `poll`: release LOCK; if DONE raced in meanwhile, drain the
     * slot without waking, set LOCK again and return Ready, otherwise Pending.
     */
    method PollEnd() returns (p: Poll)
      requires Valid() && polling
      modifies this
      ensures Valid()
      ensures View() == Apply(old(View()), PollFinish).after
      ensures Some(p) == Apply(old(View()), PollFinish).poll
      ensures wakes == old(wakes) && !polling && dropped == old(dropped)
    {
      polling := false;
      var prev := FetchAnd(!LOCK);
      if prev & DONE != 0 {
        var stale := TakeSlot();
        prev := FetchOr(LOCK);
        return Ready;
      }
      return Pending;
    }

    /** `poll` with nothing in between its two halves. */
    method Poll(w: Waker) returns (p: Poll)
      requires Valid() && !polling && !dropped
      modifies this
      ensures Valid() && !polling && !dropped
      ensures View() == PollOnce(old(View()), w).after
      ensures Some(p) == PollOnce(old(View()), w).poll
      ensures wakes == old(wakes)
    {
      var early := PollBegin(w);
      if early.Some? {
        return early.value;
      }
      p := PollEnd();
    }

    /** The waiter's `drop`: take LOCK; if it was free, discard the stored waker without waking it. */
    method Drop()
      requires Valid() && !polling && !dropped
      modifies this
      ensures Valid() && dropped && !polling
      ensures View() == Apply(old(View()), WaiterDrop).after
      ensures wakes == old(wakes)
    {
      var prev := FetchOr(LOCK);
      if prev & LOCK == 0 {
        var discarded := TakeSlot();
      }
      dropped := true;
    }
  }

  /**
   * `send_done` landing while a poll holds LOCK, on a fresh signal: the poll ends
   * Ready, the slot is drained, nobody is woken.
   */
  method RaceScenario(w: Waker) returns (early: Option<Poll>, p: Poll, done: bool, slotAfter: Option<Waker>, ghost woken: seq<Task>)
    ensures early == None && p == Ready && done
    ensures slotAfter == None && woken == []
  {
    var cell := new SignalCell();
    early := cell.PollBegin(w);
    cell.SendDone();
    p := cell.PollEnd();
    done := cell.IsDone();
    slotAfter := cell.slot;
    woken := cell.wakes;
  }
}
