/** The offline action buffer of the RailTrace front end (src/contexts/OfflineContext.tsx).

    The provider keeps a connectivity flag, a FIFO queue of actions recorded while the
    user works, a copy of that queue in a browser storage slot, and a sync status.
    The asynchronous sync is split into the step that passes the guard and starts the
    two-second delay (BeginSync) and the steps that run when the delay ends (FinishSync,
    FailSync); each three-second "back to idle" timer is a ResetStatus step.

    The module first gives the provider's state as a value with one pure transition
    function per event, and proves what holds of every state reachable by any
    interleaving of events; the class OfflineProvider then keeps the same state in
    fields and each of its methods is proved to perform exactly one transition. */
module OfflineContext {

  datatype Option<T> = None | Some(value: T)

  /** One buffered action (the OfflineAction record of src/types/index.ts).
      `kind` is the record's `type`; `data` is an arbitrary payload; the timestamp is
      the clock reading in milliseconds. */
  datatype Action<D> = Action(id: string, kind: string, data: D, timestamp: int, synced: bool)

  datatype SyncStatus = Idle | Syncing | Completed | Error

  /** The provider's whole state.
      `inFlight` holds, oldest first, the queue each started sync saw when it passed its
      guard and began its delay; `resetTimers` counts the "back to idle" timers that have
      been scheduled and have not fired yet. */
  datatype State<D> = State(
    isOnline: bool,
    queue: seq<Action<D>>,
    stored: Option<seq<Action<D>>>,
    status: SyncStatus,
    inFlight: seq<seq<Action<D>>>,
    resetTimers: nat)

  /** The events that drive the provider. `RecordedUnsaved` is an `addAction` whose
      storage write throws. */
  datatype Event<D> =
    | WentOnline
    | WentOffline
    | Recorded(kind: string, data: D, clock: nat, time: int)
    | RecordedUnsaved(kind: string, data: D, clock: nat, time: int)
    | SyncRequested
    | DelayElapsed
    | SyncFailed
    | TimerFired

  // ---------------------------------------------------------------------------
  // Action records

  function Digit(d: nat): (c: char)
    requires d < 10
    ensures '0' <= c <= '9'
  {
    (48 + d) as char
  }

  /** The number a string of decimal digits spells. */
  function DigitsValue(s: string): nat
    requires forall i :: 0 <= i < |s| ==> '0' <= s[i] <= '9'
  {
    if |s| == 0 then 0 else 10 * DigitsValue(s[..|s| - 1]) + (s[|s| - 1] as int - 48)
  }

  /** The decimal text of a clock reading, as a template literal prints a number: its
      digits spell the reading and there is no leading zero. */
  function Decimal(n: nat): (r: string)
    ensures |r| > 0
    ensures forall i :: 0 <= i < |r| ==> '0' <= r[i] <= '9'
    ensures DigitsValue(r) == n
    ensures r[0] == '0' ==> |r| == 1
    decreases n
  {
    if n < 10 then [Digit(n)]
    else
      var r := Decimal(n / 10) + [Digit(n % 10)];
      assert r[..|r| - 1] == Decimal(n / 10);
      r
  }

  /** The record `addAction` builds from the caller's `type` and `data`; `clock` is the
      reading used for the id and `time` the one used for the timestamp. */
  function NewAction<D>(kind: string, data: D, clock: nat, time: int): (a: Action<D>)
    ensures a.kind == kind && a.data == data && a.timestamp == time
    ensures !a.synced
    ensures a.id == "action_" + Decimal(clock)
  {
    Action("action_" + Decimal(clock), kind, data, time, false)
  }

  /** The copy of a queue with every action flagged as synced (the `map` the sync
      computes before it clears the queue). */
  function MarkSynced<D>(q: seq<Action<D>>): (r: seq<Action<D>>)
    ensures |r| == |q|
    ensures forall i :: 0 <= i < |q| ==> r[i] == q[i].(synced := true)
  {
    if |q| == 0 then [] else [q[0].(synced := true)] + MarkSynced(q[1..])
  }

  ghost predicate AllUnsynced<D>(q: seq<Action<D>>)
  {
    forall i :: 0 <= i < |q| ==> !q[i].synced
  }

  // ---------------------------------------------------------------------------
  // Transitions

  /** Mounting the provider: the queue is loaded from the storage slot when the slot
      holds a value and is empty otherwise. The auto-sync effect also runs in this first
      commit, but with the queue of the initial render, which is empty, so no sync starts. */
  function Boot<D>(online: bool, saved: Option<seq<Action<D>>>): (s: State<D>)
    ensures s.isOnline == online && s.stored == saved
    ensures saved.Some? ==> s.queue == saved.value
    ensures saved.None? ==> s.queue == []
    ensures s.status == Idle && s.inFlight == [] && s.resetTimers == 0
  {
    State(online, if saved.Some? then saved.value else [], saved, Idle, [], 0)
  }

  /** `syncPendingActions` up to its delay: offline or with an empty queue it returns at
      once; otherwise the status becomes syncing and a sync over the current queue starts. */
  function Sync<D>(s: State<D>): (t: State<D>)
    ensures !s.isOnline || |s.queue| == 0 ==> t == s
    ensures s.isOnline && |s.queue| > 0 ==>
      t.status == Syncing && t.inFlight == s.inFlight + [s.queue]
    ensures t.isOnline == s.isOnline && t.queue == s.queue && t.stored == s.stored
    ensures t.resetTimers == s.resetTimers
  {
    if !s.isOnline || |s.queue| == 0 then s
    else s.(status := Syncing, inFlight := s.inFlight + [s.queue])
  }

  /** The `online` event. The flag changes only when the provider was offline, and only
      then does the auto-sync effect run: it starts a sync when the queue is non-empty. */
  function SetOnline<D>(s: State<D>): (t: State<D>)
    ensures t.isOnline
    ensures t.queue == s.queue && t.stored == s.stored && t.resetTimers == s.resetTimers
    ensures !s.isOnline && |s.queue| > 0 ==>
      t.status == Syncing && t.inFlight == s.inFlight + [s.queue]
    ensures s.isOnline || |s.queue| == 0 ==> t.status == s.status && t.inFlight == s.inFlight
  {
    if s.isOnline then s
    else
      var t := s.(isOnline := true);
      if |t.queue| > 0 then Sync(t) else t
  }

  /** The `offline` event: only the flag changes. */
  function SetOffline<D>(s: State<D>): (t: State<D>)
    ensures !t.isOnline
    ensures t.(isOnline := s.isOnline) == s
  {
    s.(isOnline := false)
  }

  /** `addAction`: one new record goes to the end of the queue and the whole queue is
      written to the storage slot. */
  function Add<D>(s: State<D>, kind: string, data: D, clock: nat, time: int): (t: State<D>)
    ensures |t.queue| == |s.queue| + 1
    ensures t.queue[..|s.queue|] == s.queue
    ensures t.queue[|s.queue|] == NewAction(kind, data, clock, time)
    ensures t.stored == Some(t.queue)
    ensures t.(queue := s.queue, stored := s.stored) == s
  {
    var updated := s.queue + [NewAction(kind, data, clock, time)];
    s.(queue := updated, stored := Some(updated))
  }

  /** `addAction` when writing the storage slot throws: serialising the queue fails (a
      cyclic payload, say) or storage refuses it (quota, blocked storage). The in-memory
      queue was already set, so the record stays in memory only and the slot keeps what
      it held; the exception then leaves `addAction`. */
  function AddUnsaved<D>(s: State<D>, kind: string, data: D, clock: nat, time: int): (t: State<D>)
    ensures |t.queue| == |s.queue| + 1
    ensures t.queue[..|s.queue|] == s.queue
    ensures t.queue[|s.queue|] == NewAction(kind, data, clock, time)
    ensures t.(queue := s.queue) == s
  {
    s.(queue := s.queue + [NewAction(kind, data, clock, time)])
  }

  /** The oldest sync's delay ends and the rest of its `try` block runs: the queue is
      emptied (whatever it holds by then), the slot is removed, the status becomes
      completed and a timer to reset it is scheduled. */
  function Finish<D>(s: State<D>): (t: State<D>)
    requires |s.inFlight| > 0
    ensures t.queue == [] && t.stored == None && t.status == Completed
    ensures t.inFlight == s.inFlight[1..] && t.resetTimers == s.resetTimers + 1
    ensures t.isOnline == s.isOnline
  {
    s.(queue := [], stored := None, status := Completed,
       inFlight := s.inFlight[1..], resetTimers := s.resetTimers + 1)
  }

  /** The oldest sync's `try` block throws. The one statement in it that can throw is the
      removal of the storage slot, which comes after the queue was set to empty: the
      in-memory queue is empty, the slot keeps what it held, the status becomes error and
      a timer to reset it is scheduled. */
  function Fail<D>(s: State<D>): (t: State<D>)
    requires |s.inFlight| > 0
    ensures t.queue == [] && t.stored == s.stored && t.status == Error
    ensures t.inFlight == s.inFlight[1..] && t.resetTimers == s.resetTimers + 1
    ensures t.isOnline == s.isOnline
  {
    s.(queue := [], status := Error,
       inFlight := s.inFlight[1..], resetTimers := s.resetTimers + 1)
  }

  /** A scheduled three-second timer fires and sets the status back to idle. */
  function Reset<D>(s: State<D>): (t: State<D>)
    requires s.resetTimers > 0
    ensures t.status == Idle && t.resetTimers == s.resetTimers - 1
    ensures t.(status := s.status, resetTimers := s.resetTimers) == s
  {
    s.(status := Idle, resetTimers := s.resetTimers - 1)
  }

  /** An event can happen: the end of a delay needs a started sync, a timer needs to
      have been scheduled; the rest can always happen. */
  predicate Enabled<D>(s: State<D>, e: Event<D>)
  {
    match e
    case DelayElapsed => |s.inFlight| > 0
    case SyncFailed => |s.inFlight| > 0
    case TimerFired => s.resetTimers > 0
    case _ => true
  }

  function Step<D>(s: State<D>, e: Event<D>): State<D>
    requires Enabled(s, e)
  {
    match e
    case WentOnline => SetOnline(s)
    case WentOffline => SetOffline(s)
    case Recorded(kind, data, clock, time) => Add(s, kind, data, clock, time)
    case RecordedUnsaved(kind, data, clock, time) => AddUnsaved(s, kind, data, clock, time)
    case SyncRequested => Sync(s)
    case DelayElapsed => Finish(s)
    case SyncFailed => Fail(s)
    case TimerFired => Reset(s)
  }

  /** The state after a sequence of events, or None when one of them cannot happen. */
  function Run<D>(s: State<D>, es: seq<Event<D>>): Option<State<D>>
    decreases |es|
  {
    if |es| == 0 then Some(s)
    else if Enabled(s, es[0]) then Run(Step(s, es[0]), es[1..])
    else None
  }

  /** Every timer that is still pending fires, one after the other. */
  function SettleStatus<D>(s: State<D>): State<D>
    decreases s.resetTimers
  {
    if s.resetTimers == 0 then s else SettleStatus(Reset(s))
  }

  // ---------------------------------------------------------------------------
  // Invariants of every reachable state

  /** What every reachable state satisfies:
      - a syncing status means some sync is in its delay;
      - a completed or error status always has a timer pending that will reset it;
      - a sync only starts over a non-empty queue. */
  ghost predicate Inv<D>(s: State<D>)
  {
    && (s.status == Syncing ==> |s.inFlight| > 0)
    && (s.status == Completed || s.status == Error ==> s.resetTimers > 0)
    && (forall j :: 0 <= j < |s.inFlight| ==> |s.inFlight[j]| > 0)
  }

  /** Whenever the in-memory queue holds actions, the storage slot holds exactly that
      queue. This is one direction of the mirror only: it says nothing of the slot when
      the queue is empty. */
  ghost predicate Mirrored<D>(s: State<D>)
  {
    |s.queue| > 0 ==> s.stored == Some(s.queue)
  }

  /** Memory and storage agree both ways: the slot holds exactly the queue, or the queue
      is empty and there is no slot. */
  ghost predicate InStep<D>(s: State<D>)
  {
    s.stored == Some(s.queue) || (s.queue == [] && s.stored.None?)
  }

  /** Every `addAction` in a sequence of events saves its record to storage. */
  ghost predicate AddsPersisted<D>(es: seq<Event<D>>)
  {
    forall i :: 0 <= i < |es| ==> !es[i].RecordedUnsaved?
  }

  /** Nothing fails in a sequence of events: every `addAction` saves its record, and no
      sync fails at removing the slot. */
  ghost predicate FailureFree<D>(es: seq<Event<D>>)
  {
    forall i :: 0 <= i < |es| ==> !es[i].RecordedUnsaved? && !es[i].SyncFailed?
  }

  /** No action in memory, in storage or in a running sync is flagged as synced. */
  ghost predicate Unsynced<D>(s: State<D>)
  {
    && AllUnsynced(s.queue)
    && (s.stored.Some? ==> AllUnsynced(s.stored.value))
    && (forall j :: 0 <= j < |s.inFlight| ==> AllUnsynced(s.inFlight[j]))
  }

  lemma BootInv<D>(online: bool, saved: Option<seq<Action<D>>>)
    ensures Inv(Boot(online, saved)) && Mirrored(Boot(online, saved)) && InStep(Boot(online, saved))
    ensures saved.Some? && AllUnsynced(saved.value) ==> Unsynced(Boot(online, saved))
    ensures saved.None? ==> Unsynced(Boot(online, saved))
  {
  }

  lemma StepKeepsInv<D>(s: State<D>, e: Event<D>)
    requires Inv(s) && Enabled(s, e)
    ensures Inv(Step(s, e))
  {
  }

  lemma StepKeepsMirrored<D>(s: State<D>, e: Event<D>)
    requires Mirrored(s) && Enabled(s, e) && !e.RecordedUnsaved?
    ensures Mirrored(Step(s, e))
  {
  }

  /** Every event except a failed write or a failed sync keeps memory and storage in step. */
  lemma StepKeepsInStep<D>(s: State<D>, e: Event<D>)
    requires InStep(s) && Enabled(s, e) && !e.RecordedUnsaved? && !e.SyncFailed?
    ensures InStep(Step(s, e))
  {
  }

  /** When memory and storage are in step, a reload restores exactly the pending queue. */
  lemma ReloadRestoresQueue<D>(s: State<D>, online: bool)
    requires InStep(s)
    ensures Boot(online, s.stored).queue == s.queue
  {
  }

  /** A failed sync clears the queue in memory only: a reload afterwards brings back the
      records the sync was about to clear. */
  lemma FailedSyncResurrects<D>(s: State<D>, online: bool)
    requires InStep(s) && s.isOnline && |s.queue| > 0
    ensures Fail(Sync(s)).queue == []
    ensures Boot(online, Fail(Sync(s)).stored).queue == s.queue
    ensures !InStep(Fail(Sync(s)))
  {
  }

  /** A failed write breaks the mirror: from a state in step, the new record is in
      memory and the slot does not hold the queue. */
  lemma UnsavedAddBreaksMirror<D>(s: State<D>, kind: string, data: D, clock: nat, time: int)
    requires InStep(s)
    ensures !Mirrored(AddUnsaved(s, kind, data, clock, time))
    ensures AddUnsaved(s, kind, data, clock, time).stored == s.stored
  {
  }

  lemma StepKeepsUnsynced<D>(s: State<D>, e: Event<D>)
    requires Unsynced(s) && Enabled(s, e)
    ensures Unsynced(Step(s, e))
  {
  }

  /** Every state reached by any interleaving of events keeps the invariant. */
  lemma {:induction false} RunKeepsInv<D>(s: State<D>, es: seq<Event<D>>)
    requires Inv(s)
    ensures Run(s, es).Some? ==> Inv(Run(s, es).value)
    decreases |es|
  {
    if |es| > 0 && Enabled(s, es[0]) {
      StepKeepsInv(s, es[0]);
      RunKeepsInv(Step(s, es[0]), es[1..]);
    }
  }

  /** As long as every storage write succeeds, a non-empty queue stays mirrored in storage. */
  lemma {:induction false} RunKeepsMirrored<D>(s: State<D>, es: seq<Event<D>>)
    requires Mirrored(s) && AddsPersisted(es)
    ensures Run(s, es).Some? ==> Mirrored(Run(s, es).value)
    decreases |es|
  {
    if |es| > 0 && Enabled(s, es[0]) {
      assert !es[0].RecordedUnsaved?;
      StepKeepsMirrored(s, es[0]);
      assert AddsPersisted(es[1..]) by {
        forall i | 0 <= i < |es[1..]| ensures !es[1..][i].RecordedUnsaved? {
          assert es[1..][i] == es[i + 1];
        }
      }
      RunKeepsMirrored(Step(s, es[0]), es[1..]);
    }
  }

  /** As long as nothing fails, memory and storage stay in step. */
  lemma {:induction false} RunKeepsInStep<D>(s: State<D>, es: seq<Event<D>>)
    requires InStep(s) && FailureFree(es)
    ensures Run(s, es).Some? ==> InStep(Run(s, es).value)
    decreases |es|
  {
    if |es| > 0 && Enabled(s, es[0]) {
      assert !es[0].RecordedUnsaved? && !es[0].SyncFailed?;
      StepKeepsInStep(s, es[0]);
      assert FailureFree(es[1..]) by {
        forall i | 0 <= i < |es[1..]| ensures !es[1..][i].RecordedUnsaved? && !es[1..][i].SyncFailed? {
          assert es[1..][i] == es[i + 1];
        }
      }
      RunKeepsInStep(Step(s, es[0]), es[1..]);
    }
  }

  /** The copies flagged `synced: true` that a finishing sync computes never reach the
      queue, the storage slot or a later sync: when the provider starts from unsynced
      records, every record it ever holds stays unsynced. */
  lemma {:induction false} RunKeepsUnsynced<D>(s: State<D>, es: seq<Event<D>>)
    requires Unsynced(s)
    ensures Run(s, es).Some? ==> Unsynced(Run(s, es).value)
    decreases |es|
  {
    if |es| > 0 && Enabled(s, es[0]) {
      StepKeepsUnsynced(s, es[0]);
      RunKeepsUnsynced(Step(s, es[0]), es[1..]);
    }
  }

  /** From start-up, whatever happens: the status invariant holds; a non-empty queue is
      mirrored in storage as long as every `addAction` saved its record; memory and
      storage agree both ways, so that a reload restores exactly the pending queue, as
      long as nothing failed; and if storage held only unsynced records no record is ever
      flagged as synced. */
  lemma ReachableFromBoot<D>(online: bool, saved: Option<seq<Action<D>>>, es: seq<Event<D>>)
    requires Run(Boot(online, saved), es).Some?
    ensures Inv(Run(Boot(online, saved), es).value)
    ensures AddsPersisted(es) ==> Mirrored(Run(Boot(online, saved), es).value)
    ensures FailureFree(es) ==> InStep(Run(Boot(online, saved), es).value)
    ensures FailureFree(es) ==>
      Boot(online, Run(Boot(online, saved), es).value.stored).queue == Run(Boot(online, saved), es).value.queue
    ensures (saved.None? || AllUnsynced(saved.value)) ==> Unsynced(Run(Boot(online, saved), es).value)
  {
    BootInv(online, saved);
    RunKeepsInv(Boot(online, saved), es);
    if AddsPersisted(es) {
      RunKeepsMirrored(Boot(online, saved), es);
    }
    if FailureFree(es) {
      RunKeepsInStep(Boot(online, saved), es);
      ReloadRestoresQueue(Run(Boot(online, saved), es).value, online);
    }
    if saved.None? || AllUnsynced(saved.value) {
      RunKeepsUnsynced(Boot(online, saved), es);
    }
  }

  /** Once no sync is in its delay, the pending timers bring the status back to idle. */
  lemma {:induction false} StatusSettlesToIdle<D>(s: State<D>)
    requires Inv(s) && |s.inFlight| == 0
    ensures SettleStatus(s).status == Idle
    ensures SettleStatus(s).queue == s.queue && SettleStatus(s).stored == s.stored
    decreases s.resetTimers
  {
    if s.resetTimers > 0 {
      StatusSettlesToIdle(Reset(s));
    }
  }

  /** A sync that passes its guard and succeeds: syncing, then completed with the queue
      empty and the slot removed, then idle after the timer. */
  lemma SuccessfulSync<D>(s: State<D>)
    requires s.isOnline && |s.queue| > 0
    ensures Sync(s).status == Syncing
    ensures Finish(Sync(s)).status == Completed
    ensures Finish(Sync(s)).queue == [] && Finish(Sync(s)).stored == None
    ensures Reset(Finish(Sync(s))).status == Idle
  {
  }

  /** A sync that passes its guard and fails: syncing, then error with the storage slot
      untouched, then idle after the timer. */
  lemma FailedSync<D>(s: State<D>)
    requires s.isOnline && |s.queue| > 0
    ensures Sync(s).status == Syncing
    ensures Fail(Sync(s)).status == Error && Fail(Sync(s)).stored == s.stored
    ensures Reset(Fail(Sync(s))).status == Idle && Reset(Fail(Sync(s))).stored == s.stored
  {
  }

  /** An action recorded during a sync's delay is not part of the queue that sync
      carries, yet the sync's success removes it from memory and from storage. */
  lemma LateActionDropped<D>(s: State<D>, kind: string, data: D, clock: nat, time: int)
    requires s.isOnline && |s.queue| > 0 && |s.inFlight| == 0
    ensures Add(Sync(s), kind, data, clock, time).inFlight == [s.queue]
    ensures Add(Sync(s), kind, data, clock, time).queue == s.queue + [NewAction(kind, data, clock, time)]
    ensures Finish(Add(Sync(s), kind, data, clock, time)).queue == []
    ensures Finish(Add(Sync(s), kind, data, clock, time)).stored == None
  {
  }

  // ---------------------------------------------------------------------------
  // The provider object

  class OfflineProvider<D> {
    var isOnline: bool
    var queue: seq<Action<D>>
    var stored: Option<seq<Action<D>>>
    var status: SyncStatus
    var inFlight: seq<seq<Action<D>>>
    var resetTimers: nat

    function View(): State<D>
      reads this
    {
      State(isOnline, queue, stored, status, inFlight, resetTimers)
    }

    ghost predicate Valid()
      reads this
    {
      Inv(View())
    }

    /** Mounting the provider with the browser's connectivity and the storage slot. */
    constructor (online: bool, saved: Option<seq<Action<D>>>)
      ensures Valid() && View() == Boot(online, saved)
      ensures isOnline == online && stored == saved
      ensures queue == (if saved.Some? then saved.value else [])
      ensures status == Idle && inFlight == [] && resetTimers == 0
    {
      isOnline := online;
      queue := [];
      status := Idle;
      stored := saved;
      inFlight := [];
      resetTimers := 0;
      if saved.Some? {
        queue := saved.value;
      }
      BootInv(online, saved);
    }

    method GoOffline()
      requires Valid()
      modifies this
      ensures Valid() && View() == SetOffline(old(View()))
      ensures !isOnline
      ensures queue == old(queue) && stored == old(stored) && status == old(status)
      ensures inFlight == old(inFlight) && resetTimers == old(resetTimers)
    {
      isOnline := false;
    }

    method GoOnline()
      requires Valid()
      modifies this
      ensures Valid() && View() == SetOnline(old(View()))
      ensures isOnline
      ensures queue == old(queue) && stored == old(stored) && resetTimers == old(resetTimers)
      ensures !old(isOnline) && |old(queue)| > 0 ==>
        status == Syncing && inFlight == old(inFlight) + [old(queue)]
      ensures old(isOnline) || |old(queue)| == 0 ==>
        status == old(status) && inFlight == old(inFlight)
    {
      if !isOnline {
        isOnline := true;
        if |queue| > 0 {
          BeginSync();
        }
      }
    }

    method AddAction(kind: string, data: D, clock: nat, time: int)
      requires Valid()
      modifies this
      ensures Valid() && View() == Add(old(View()), kind, data, clock, time)
      ensures queue == old(queue) + [NewAction(kind, data, clock, time)]
      ensures stored == Some(queue)
      ensures isOnline == old(isOnline) && status == old(status)
      ensures inFlight == old(inFlight) && resetTimers == old(resetTimers)
    {
      var newAction := NewAction(kind, data, clock, time);
      var updated := queue + [newAction];
      queue := updated;
      stored := Some(updated);
      StepKeepsInv(old(View()), Recorded(kind, data, clock, time));
    }

    /** `addAction` when the storage write throws after the queue was set. */
    method AddActionUnsaved(kind: string, data: D, clock: nat, time: int)
      requires Valid()
      modifies this
      ensures Valid() && View() == AddUnsaved(old(View()), kind, data, clock, time)
      ensures queue == old(queue) + [NewAction(kind, data, clock, time)]
      ensures stored == old(stored)
      ensures isOnline == old(isOnline) && status == old(status)
      ensures inFlight == old(inFlight) && resetTimers == old(resetTimers)
    {
      var newAction := NewAction(kind, data, clock, time);
      var updated := queue + [newAction];
      queue := updated;
    }

    /** `syncPendingActions` up to the start of its delay. */
    method BeginSync()
      requires Valid()
      modifies this
      ensures Valid() && View() == Sync(old(View()))
      ensures !old(isOnline) || |old(queue)| == 0 ==> View() == old(View())
      ensures old(isOnline) && |old(queue)| > 0 ==>
        status == Syncing && inFlight == old(inFlight) + [old(queue)]
      ensures isOnline == old(isOnline) && queue == old(queue) && stored == old(stored)
      ensures resetTimers == old(resetTimers)
    {
      if !isOnline || |queue| == 0 {
        return;
      }
      status := Syncing;
      inFlight := inFlight + [queue];
    }

    /** The oldest sync's delay ends and its remaining statements succeed. */
    method FinishSync()
      requires Valid() && |inFlight| > 0
      modifies this
      ensures Valid() && View() == Finish(old(View()))
      ensures queue == [] && stored == None && status == Completed
      ensures inFlight == old(inFlight)[1..] && resetTimers == old(resetTimers) + 1
      ensures isOnline == old(isOnline)
    {
      var snapshot := inFlight[0];
      inFlight := inFlight[1..];
      // The flagged copy is computed and then not used.
      var syncedActions := MarkSynced(snapshot);
      queue := [];
      stored := None;
      status := Completed;
      resetTimers := resetTimers + 1;
      StepKeepsInv(old(View()), DelayElapsed);
    }

    /** The oldest sync's delay ends and removing the storage slot throws. */
    method FailSync()
      requires Valid() && |inFlight| > 0
      modifies this
      ensures Valid() && View() == Fail(old(View()))
      ensures queue == [] && stored == old(stored) && status == Error
      ensures inFlight == old(inFlight)[1..] && resetTimers == old(resetTimers) + 1
      ensures isOnline == old(isOnline)
    {
      inFlight := inFlight[1..];
      queue := [];
      status := Error;
      resetTimers := resetTimers + 1;
      StepKeepsInv(old(View()), SyncFailed);
    }

    /** A three-second timer fires. */
    method ResetStatus()
      requires Valid() && resetTimers > 0
      modifies this
      ensures Valid() && View() == Reset(old(View()))
      ensures status == Idle && resetTimers == old(resetTimers) - 1
      ensures isOnline == old(isOnline) && queue == old(queue) && stored == old(stored)
      ensures inFlight == old(inFlight)
    {
      status := Idle;
      resetTimers := resetTimers - 1;
    }
  }
}
