# compact-waitgroup, modelled in Dafny

compact-waitgroup is an async wait group for Rust. `WaitGroup::new()` returns
one waiter future and one clonable `WorkerHandle`. The future completes once
every handle has been dropped. `MonoWaitGroup` is the same with a single
handle that cannot be cloned. Waiter and handles share one small heap
allocation, which holds these parts:

- **a completion signal** (`src/core_impl.rs`): a state byte with a DONE bit
  (`0b01`) and a LOCK bit (`0b10`), plus a slot for at most one `Waker`.
  - `send_done` sets both bits. It drains and wakes the slot only if it found
    LOCK free.
  - The waiter's `poll` takes LOCK, stores its waker and releases LOCK. If DONE
    raced in meanwhile, it drains the slot itself, sets LOCK again and returns
    Ready.
  - The waiter's `drop` takes LOCK and discards the slot if LOCK was free.
- **a twin reference count** (`src/twin_ref.rs`): a `u8` that starts at 2, one
  for each of the two owners. The drop that takes it from 1 to 0 frees the
  allocation.
- **a clone count**: a `usize` that starts at 1 and sits on one of the two
  halves. The clone drop that takes it from 1 to 0 runs the layout's
  `action_on_zero`, which is `send_done`, and only then releases that half.
  `clone` panics when the count before the increment is above
  `usize::MAX / 2`.

## How the model is built

- **Atomic steps.** Every atomic read-modify-write is one indivisible step of a
  sequential model. The one exception is the end of a poll that finds DONE
  raced in: it is a single step, although the source uses three operations
  (see "Left out").
- **The poll is two steps.** `PollBegin` covers taking LOCK and storing the
  waker. `PollEnd` covers releasing LOCK and checking for DONE again. A
  `SendDone` can therefore land between them, which is the one race the
  protocol must resolve.
- **Wakers.** A waker is a task id. `will_wake` means "same task". A ghost wake
  log records every `Waker::wake`, so "woken exactly once" and "never woken"
  can be stated.
- **Frees.** A ghost count of frees stands for `Box::from_raw`.
- **Ghost ids.** Ghost sets record which halves and which clones are still
  alive. That is how the counts are tied to their owners.

The signal protocol exists twice:

- as a function on values: `Signal.Apply`, `Signal.PollOnce`, `Signal.Run`;
- as the class `Signal.SignalCell`, which works on the bit-level byte. Each of
  its methods is proved to take exactly the step `Apply` describes.

Module and file layout:

| file | module | models |
|---|---|---|
| `signal.dfy` | `Signal` | `src/core_impl.rs` |
| `twin_ref.dfy` | `Twin` | `src/twin_ref.rs` |
| `layout.dfy` | `Layout` | `src/layout.rs`, `src/state.rs` |
| `group.dfy` | `Group` | `src/group.rs`, `src/wait_group.rs` |
| `scenarios.dfy` | `Scenarios` | the crate's unit tests and documentation examples, as end-to-end runs |

### Two code generations

The repository carries the same logic twice under two sets of names. The model
has one member for each operation.

| older file | newer file |
|---|---|
| `src/state.rs`: `MonoWgInner`, `SharedWgInner`, `TwinRefType`, `ClonableTwinRefType`, `WaitGroupType` | `src/layout.rs`: `MonoLayout`, `SharedLayout`, `TwinRefLayout`, `ClonableTwinRefLayout`, `WaitGroupLayout` |
| `src/wait_group.rs` | `src/group.rs` |

The model's names follow the newer generation, and the Model table cites the
newer file. The older spans, member by member:

| member | older span |
|---|---|
| Layout.MonoLayout.constructor | src/state.rs:32-50 |
| Layout.SharedLayout.constructor | src/state.rs:66-83 |
| Layout.SharedLayout.ActionOnZero | src/state.rs:134-146 |
| Group.NewWaitGroup | src/wait_group.rs:99-106 |
| Group.WaitGroup.IsDone | src/wait_group.rs:123-126 |
| Group.WorkerHandle.Done | src/wait_group.rs:203-211 |
| Group.NewMonoWaitGroup | src/wait_group.rs:142-146 |
| Group.MonoWaitGroup.IsDone | src/wait_group.rs:163-166 |
| Group.MonoWorkerHandle.Drop | src/wait_group.rs:223-230 |
| Group.MonoWorkerHandle.Done | src/wait_group.rs:213-221 |

### Layout accessors

The `Borrow<MonoLayout>` accessors (`src/layout.rs:66-97`, `src/state.rs:101-132`)
are `Layout.SharedLayout.Count()` and `Layout.SharedLayout.State()`. Both
return the inner `MonoLayout`'s objects. That is why the waiter, the handles
and the zero action all act on one signal and one twin count.

### Feature choice

The `compact-mono` feature is taken as enabled: `MonoInner` is `MonoLayout`. So
`MonoWaitGroup` runs over `MonoLayout` and `WaitGroup` over `SharedLayout`, and
both layouts are used.

### Tests and doc examples

In the tests, `release()` and `scope()` on a handle mean "drop it" and "apply
this closure". The scenarios model them that way; the helpers that define them
are not part of this model.

## Model

| member | source | states |
|---|---|---|
| Signal.SendDoneWhenFree | src/core_impl.rs:50-57 | `send_done` with LOCK free sets DONE and LOCK and empties the slot. It wakes the stored waker's task exactly once, or nobody if the slot was empty. |
| Signal.SendDoneWhileLocked | src/core_impl.rs:51-52 | `send_done` while LOCK is held sets both bits, leaves the slot untouched and wakes nobody. |
| Signal.PollWhenDone | src/core_impl.rs:70-74 | A poll that finds DONE returns Ready, leaves the slot untouched and wakes nobody. |
| Signal.PollWhenNotDone | src/core_impl.rs:78-101 | A poll before DONE returns Pending, releases LOCK and leaves a waker for the polling task in the slot. A stored waker for the same task is kept. |
| Signal.PendingPollIsWoken | src/core_impl.rs:50-101 | No lost wake-up: after a Pending poll, `send_done` wakes exactly the task that polled. |
| Signal.LaterWakerReplacesEarlier | src/core_impl.rs:82-89 | Poll by task A, then by task B: both Pending; the next `send_done` wakes B once and A never. |
| Signal.RaceResolvesWithoutWake | src/core_impl.rs:94-99 | `send_done` between the halves of a poll wakes nobody. The poll's second half then returns Ready, leaves both bits set and empties the slot. |
| Signal.DroppedWaiterIsNotWoken | src/core_impl.rs:105-115 | Dropping a waiter that polled Pending discards its waker. A later `send_done` finds LOCK set and wakes nobody. |
| Signal.DoneNeverCleared | src/core_impl.rs:94-97 | Once DONE is set, no sequence of steps clears it: the only clearing step masks LOCK alone. |
| Signal.InvPreserved | src/core_impl.rs:94-98 | At every step boundary of the model, DONE is never seen without LOCK, across any sequence of steps. The source's short window inside a poll's end is described under "Left out". |
| Signal.AtMostOneWake | src/core_impl.rs:50-57 | Any sequence of steps delivers at most one wake, and none if DONE was already set at the start. |
| Signal.SlotStaysDrained | src/core_impl.rs:94-99 | Once DONE is set and the slot is empty, no sequence of steps stores a waker again. |
| Signal.Register | src/core_impl.rs:82-89 | After a poll registers waker `w`, the slot holds a waker for `w`'s task. A stored waker that wakes the same task is kept rather than replaced. |
| Signal.Apply | src/core_impl.rs:50-115 | One step of the protocol. DONE is set after the step exactly when it was set before or the step is `send_done`. The step keeps DONE-implies-LOCK. It wakes at most one task, and only when it is `send_done` finding LOCK free and a waker stored, in which case it wakes that waker's task. It returns a poll result exactly when it ends a poll or starts one that finds DONE. |
| Signal.PollOnce | src/core_impl.rs:69-102 | A whole poll always returns a result, wakes nobody and does not change DONE. It is Ready exactly when DONE was set. Otherwise it leaves LOCK free and a waker for the polling task in the slot. |
| Signal.Run | src/core_impl.rs:50-115 | The result of a run of steps is the last step's: a run that ends with `PollFinish` returns Pending or Ready, and a run that ends with `SignalDone` or `WaiterDrop` returns no poll result. |
| Signal.SignalCell.constructor | src/layout.rs:37-38 | A fresh signal has state byte 0 and an empty slot: not done, not locked. |
| Signal.SignalCell.IsDone | src/core_impl.rs:45-47 | True exactly when DONE is set. When it is, LOCK is held and, outside a poll, the slot is empty. |
| Signal.SignalCell.SendDone | src/core_impl.rs:50-57 | The byte-level `fetch_or(DONE \| LOCK)`, conditional take and wake take exactly the `SignalDone` step. The wake log grows by that step's wakes, and the invariant is kept. |
| Signal.SignalCell.PollBegin | src/core_impl.rs:70-92 | Takes exactly the `PollStart` step. It stops early with Ready if and only if DONE was set. The debug assertion that LOCK was free is proved. |
| Signal.SignalCell.PollEnd | src/core_impl.rs:94-101 | Takes exactly the `PollFinish` step: Pending, or Ready after draining the slot without waking and setting LOCK again. |
| Signal.SignalCell.Poll | src/core_impl.rs:69-102 | A whole poll is `PollOnce`, keeps the invariant and wakes nobody. |
| Signal.SignalCell.Drop | src/core_impl.rs:105-115 | The waiter's drop takes exactly the `WaiterDrop` step, wakes nobody and marks the waiter gone. |
| Signal.RaceScenario | src/core_impl.rs:94-99 | On a fresh signal, PollBegin, SendDone, PollEnd: the poll does not stop early, ends Ready, and DONE is set. The slot ends up drained and nobody is woken. |
| Twin.ZeroTransitionExactlyOnce | src/twin_ref.rs:93-100 | Releasing k of n owners leaves n - k. The zero transition is seen once if k = n and never if k < n. |
| Twin.ReleaseStep | src/twin_ref.rs:94 | The wrapping `fetch_sub(1)` stays in range and is undone by a wrapping increment. The call that sees 1 -> 0 leaves the count at zero. |
| Twin.CloneStep | src/twin_ref.rs:174-178 | The wrapping `fetch_add(1)` is undone by a wrapping decrement. A clone whose guard does not fire leaves the count between 1 and `usize::MAX / 2 + 1`, so it never wraps to zero. |
| Twin.CloneThenRelease | src/twin_ref.rs:148-181 | The increment of a clone followed by the decrement of a clone's drop gives the count back, for every `usize` count, including counts above `usize::MAX / 2` and the wrap at `usize::MAX`. This is arithmetic only: a clone that panicked returns no handle, so its increment is never released (see `CloneCount.leaked`). The decrement sees 1 -> 0 only if the count was 0 before the increment. |
| Twin.TwinCount.constructor | src/twin_ref.rs:16-22 | The twin count starts at 2, one per live half, with nothing freed. |
| Twin.TwinCount.DropTwinRef | src/twin_ref.rs:93-100 | Decrements the count and removes the half. It frees only when the count before was 1, so the allocation is freed at most once. |
| Twin.CloneCount.constructor | src/twin_ref.rs:24-29 | The clone count starts at 1, for the first clonable handle. |
| Twin.CloneCount.Clone | src/twin_ref.rs:160-181 | Adds exactly 1. It returns a new live clone if and only if the guard does not fire; when the guard fires, the increment stays as a leaked count. |
| Twin.CloneCount.Release | src/twin_ref.rs:148-153 | Decrements and removes the clone. It reports the last drop if and only if no clone is left, and the zero transition happens at most once. |
| Twin.TwinScenario | src/tests/default/twin_ref.rs:76-97 | In either order, dropping one half leaves count 1 and frees nothing. Dropping the other leaves 0 and frees once. Both free counts are outputs of the contract. |
| Layout.MonoLayout.constructor | src/layout.rs:32-41 | Fresh fields: twin count 2, state byte 0, empty slot. |
| Layout.SharedLayout.Count | src/layout.rs:80-85 | The twin count of a shared layout is the inner `MonoLayout`'s, so both halves and the zero action reach one counter. The older copy is src/state.rs:115-120. |
| Layout.SharedLayout.State | src/layout.rs:87-97 | The state byte and slot of a shared layout are the inner `MonoLayout`'s, so the waiter, the handles and the zero action act on one signal. The older copy is src/state.rs:122-132. |
| Layout.SharedLayout.constructor | src/layout.rs:56-64 | Clone count 1 in front of a fresh `MonoLayout`. The layout invariant holds: the clonable half is alive and DONE is clear. |
| Layout.SharedLayout.ActionOnZero | src/layout.rs:99-111 | The zero action is exactly the `SignalDone` step on the inner layout's signal. |
| Layout.SharedLayout.DropClonable | src/twin_ref.rs:148-157 | A drop that is not the last changes nothing else. The last drop runs the zero action once and only then releases the clonable half. DONE stays set exactly when no clone is left. |
| Group.NewWaitGroup | src/group.rs:103-110 | A fresh `SharedLayout` is split into the waiter and one live handle, with both halves alive. The group is not done. |
| Group.WaitGroup.IsDone | src/group.rs:112-130 | True if and only if every worker handle has been dropped and no panicked clone left its increment behind. |
| Group.WaitGroup.Poll | src/group.rs:173-180 | A `PollOnce` on the shared signal. Ready if and only if every worker handle has been dropped and no panicked clone left its increment behind; no wake. |
| Group.WaitGroup.Drop | src/core_impl.rs:105-115 | The waiter's drop, then its twin half's release. The allocation is freed exactly when the clonable half is already gone. |
| Group.WorkerHandle.Clone | src/twin_ref.rs:160-181 | The count grows by 1. A fresh handle on the same layout with a new id, or a panic past `usize::MAX / 2` that leaves the increment behind. |
| Group.WorkerHandle.Drop | src/twin_ref.rs:148-157 | Removes this handle. The last one sets DONE, delivers the `SignalDone` wake and releases the clonable half; any other changes no signal state. |
| Group.WorkerHandle.Done | src/group.rs:191-199 | The same outcome as dropping the handle. |
| Group.NewMonoWaitGroup | src/group.rs:146-150 | A fresh `MonoLayout` is split by `new_mono` into waiter and handle. The group is not done. |
| Group.MonoWaitGroup.IsDone | src/group.rs:152-170 | True if and only if the worker handle has been dropped. |
| Group.MonoWaitGroup.Poll | src/group.rs:182-189 | A `PollOnce` on the mono signal. Ready if and only if the worker handle has been dropped; no wake. |
| Group.MonoWaitGroup.Drop | src/core_impl.rs:105-115 | The waiter's drop, then its half's release. The allocation is freed exactly when the worker's half is already gone. |
| Group.MonoWorkerHandle.Drop | src/group.rs:211-218 | `send_done` (the `SignalDone` step and its wake), then the release of the worker's half. DONE is set exactly when that half is gone. |
| Group.MonoWorkerHandle.Done | src/group.rs:201-209 | The same outcome as dropping the handle. |
| Scenarios.WaitGroupDone | src/tests/default/base.rs:10-20 | Poll Pending, release, poll Ready; the polling task is woken exactly once. |
| Scenarios.WaitGroupDoneTwice | src/tests/default/base.rs:22-53 | With two handles released in either order: Pending, Pending, Ready, and exactly one wake. |
| Scenarios.MonoWaitGroupDone | src/tests/default/base.rs:55-65 | The mono group: Pending, release, Ready, exactly one wake. |
| Scenarios.SendBeforePoll | src/tests/default/base.rs:67-76 | Release before the first poll: Ready at once and no wake. |
| Scenarios.MonoSendBeforePoll | src/tests/default/base.rs:78-87 | The same for the mono group. |
| Scenarios.DropBeforeSend | src/tests/default/base.rs:89-94 | Dropping the waiter and then the handle brings both counts to 0 and frees once, with no wake. |
| Scenarios.MonoDropBeforeSend | src/tests/default/base.rs:96-101 | The same for the mono group. |
| Scenarios.PollByOthers | src/tests/default/base.rs:103-130 | Polls by task a then task b: Pending, Pending, then Ready, Ready. Only b is woken, once. |
| Scenarios.DropEarly | src/tests/default/base.rs:132-145 | A polled waiter dropped before the release is never woken, and the allocation is freed once. |
| Scenarios.RePollAfterDone | src/group.rs:25-41 | Not done before the release, done after it. Polling again after completion stays Ready and done. |
| Scenarios.MonoRePollAfterDone | src/group.rs:55-71 | The same for the mono group. |
| Scenarios.ClonableTwin | src/tests/default/twin_ref.rs:99-128 | Dropping an extra clone runs no action. The last clone's drop runs the action (DONE set) and leaves the twin count at 1. The other half's drop brings it to 0 and frees once. |

## Left out

- Memory orderings, fences and the sanitizer variant of the acquire fence (`src/twin_ref.rs:35-53`). Every atomic step is sequentially consistent and indivisible.
- Real thread interleavings beyond splitting `poll` into two steps. Two handles dropped concurrently are modelled in some order.
- `Box` allocation and deallocation. A ghost count of frees stands for them, and a write through one half being seen through the other holds because both halves are the same objects.
- Waker internals (`clone`, `wake`, `will_wake` on vtables). A waker is a task id, and waking appends to a log.
- The `UnlockGuard` unwind path (`src/core_impl.rs:125-139`). It runs only if `Waker::clone` panics, and then only clears LOCK; no operation in the model panics there.
- Unwinding out of `action_on_zero`, which `DropGuard` (`src/twin_ref.rs:155`) would survive by still releasing the half. `send_done` calls `Waker::wake` (`src/core_impl.rs:55`), which is executor code; the model assumes it does not unwind.
- The end of a poll that finds DONE raced in (`src/core_impl.rs:94-98`) is one step, `PollFinish`, in the model. In the source it is three operations: `fetch_and(!LOCK)`, the take of the slot, and `fetch_or(LOCK)`. Between the first and the third, DONE is set with LOCK clear, so `Signal.InvPreserved` holds only at the model's step boundaries. The window is harmless: `send_done` has already run, so no signaller is left to look at LOCK, and the waiter holds `&mut self`, so neither a second poll nor the waiter's drop can run inside it.
- Size and alignment assertions (`src/layout.rs:21-25`, `src/layout.rs:50-54`, `src/state.rs:21-25`, `src/state.rs:60-64`). They concern memory footprint, not behaviour.
- The non-`compact-mono` configuration, where `MonoWaitGroup` runs on `SharedLayout`.
- `Debug`, `Send`, `Sync` and unwind-safety impls. `FusedFuture::is_terminated` (`src/core_impl.rs:117-123`, `src/wait_group.rs:187-201`) just returns `is_done`.
- `src/ext.rs` and `src/with_worker_handle.rs`. These pin-projection wrappers forward `poll` and own a handle; they are not part of this model.
- `usize` is taken to be 64 bits wide.
- Twin.CloneCount.Clone: requires a count below `usize::MAX`. Only then is the increment exact rather than wrapping. Reaching `usize::MAX` takes about 2^63 clone attempts that already panicked, each leaking an increment.
- Group.WorkerHandle.Clone: requires a count below `usize::MAX`, for the same reason.
- The waiter is polled only while it is alive and not already mid-poll: a `Pin<&mut>` future cannot be polled twice at once or after it is dropped.
