/** The wake-up protocol of the AAudio backend: lock-free producers announce stream state
    changes to a state thread that sleeps on a condition variable, with a notifier thread as
    backup. One step is one atomic access, one lock or unlock, or one condition variable
    call; `wait` releases the mutex and falls asleep in one step. Steps interleave freely. */
module Wakeup {
  import opened StreamStates

  const MAX_STREAMS: nat := 16

  datatype Mutex = Free | HeldByState | HeldByNotifier

  /** Where the state thread stands inside `update_state`, or right behind it. */
  datatype UpdatePc =
    | Fast                  // first read of the stream state
    | TryLock
    | Requeue               // try-lock failed: sets `waiting` again
    | RequeueNotify
    | Locked                // lock held: second read of the stream state
    | Work                  // may store one new stream state
    | After                 // back in the scan: reads waiting_state of the stream

  /** Where the state thread stands; `Scan(i, u)` is the scan at stream i. */
  datatype StatePc =
    | Lock                  // at the start, or woken: has to take the mutex
    | Join                  // loop head: reads `join`
    | Load                  // reads `waiting` into the local flag
    | Park                  // saw nothing to do: about to wait without timeout
    | ParkTimed             // about to wait with a timeout
    | Asleep(timed: bool)
    | Clear                 // clears `waiting` before a scan
    | Scan(i: nat, u: UpdatePc)
    | Recheck               // reads `waiting` after the scan
    | Exit                  // about to notify and leave
    | Done

  datatype NotifierPc =
    | NStart                // has to take the mutex for the first time
    | NJoin
    | NPark
    | NAsleep
    | NWoken                // has to take the mutex again
    | NCheck                // reads `waiting`
    | NNotify
    | NExit
    | NDone

  /** A producer that stored a stream state still has to set `waiting`, then to notify. */
  datatype ProducerPc = Stored(i: nat) | Flagged

  datatype State = State(
    mutex: Mutex,
    join: bool,
    joinNotified: bool,
    waiting: bool,
    tpc: StatePc,
    local: bool,             // the state thread's own `waiting`
    npc: NotifierPc,
    nWaited: bool,           // the notifier has entered its first wait
    streams: seq<StreamState>,
    producers: map<nat, ProducerPc>,
    announced: set<nat>,     // streams announced since `update_state` last read their state
    unsettled: set<nat>      // streams found in motion behind update_state in the last scan
  )

  /** The sleeper a notify_one picks; `NoOne` only when nobody sleeps. */
  datatype Wake = WakeState | WakeNotifier | NoOne

  datatype Step =
    | StateThread(wake: Wake, lockFree: bool, store: bool, st: StreamState)
    | NotifierThread(wake: Wake)
    | WakeUpState            // spurious wake-up or timeout of the state thread
    | WakeUpNotifier         // spurious wake-up of the notifier
    | StoreState(p: nat, i: nat, st: StreamState)
    | Announce(p: nat)
    | NotifyOne(p: nat, wake: Wake)
    | StoreSilently(i: nat, st: StreamState)
    | StoreJoin
    | NotifyAll

  ghost predicate Init(s: State) {
    && s.mutex == Free && !s.join && !s.joinNotified && !s.waiting
    && s.tpc == Lock && !s.local && s.npc == NStart && !s.nWaited
    && |s.streams| == MAX_STREAMS && s.producers == map[] && s.announced == {} && s.unsettled == {}
  }

  predicate CanWake(s: State, wake: Wake) {
    match wake
    case WakeState => s.tpc.Asleep?
    case WakeNotifier => s.npc.NAsleep?
    case NoOne => !s.tpc.Asleep? && !s.npc.NAsleep?
  }

  function WokenState(pc: StatePc, wake: Wake): StatePc {
    if wake.WakeState? then Lock else pc
  }

  function WokenNotifier(pc: NotifierPc, wake: Wake): NotifierPc {
    if wake.WakeNotifier? then NWoken else pc
  }

  predicate StateEnabled(s: State, step: Step)
    requires step.StateThread?
  {
    match s.tpc
    case Lock => s.mutex == Free
    case Scan(i, u) => i < |s.streams| && (u.RequeueNotify? ==> CanWake(s, step.wake))
    case Exit => CanWake(s, step.wake)
    case Asleep(_) => false
    case Done => false
    case _ => true
  }

  /** The state thread's program, one access at a time. */
  function StateDo(s: State, step: Step): State
    requires step.StateThread? && StateEnabled(s, step)
  {
    match s.tpc
    case Lock => s.(mutex := HeldByState, tpc := Join)
    case Join => s.(tpc := if s.join then Exit else Load)
    case Load =>
      var l := s.local || s.waiting;
      s.(local := l, tpc := if l then Clear else Park)
    case Park => s.(mutex := Free, tpc := Asleep(false))
    case ParkTimed => s.(mutex := Free, tpc := Asleep(true))
    case Clear => s.(waiting := false, local := false, tpc := Scan(0, Fast), unsettled := {})
    case Scan(i, u) => UpdateDo(s, step, i, u)
    case Recheck =>
      s.(local := s.local || s.waiting,
         tpc := if s.waiting || !s.local then Join else ParkTimed)
    case Exit => s.(mutex := Free, tpc := Done, npc := WokenNotifier(s.npc, step.wake))
    case Asleep(_) => s
    case Done => s
  }

  /** `update_state` on stream i, and the read of the stream state that follows it. */
  function UpdateDo(s: State, step: Step, i: nat, u: UpdatePc): State
    requires step.StateThread? && i < |s.streams|
  {
    match u
    case Fast =>
      if Settled(s.streams[i]) then s.(announced := s.announced - {i}, tpc := Scan(i, After))
      else s.(tpc := Scan(i, TryLock))
    case TryLock => s.(tpc := Scan(i, if step.lockFree then Locked else Requeue))
    case Requeue => s.(waiting := true, tpc := Scan(i, RequeueNotify))
    case RequeueNotify => s.(tpc := Scan(i, After), npc := WokenNotifier(s.npc, step.wake))
    case Locked =>
      s.(announced := s.announced - {i},
         tpc := Scan(i, if Settled(s.streams[i]) then After else Work))
    case Work =>
      s.(streams := if step.store then s.streams[i := step.st] else s.streams,
         tpc := Scan(i, After))
    case After =>
      s.(unsettled := if InMotion(s.streams[i]) then s.unsettled + {i} else s.unsettled,
         local := s.local || WaitingState(s.streams[i]),
         tpc := if i + 1 < |s.streams| then Scan(i + 1, Fast) else Recheck)
  }

  predicate NotifierEnabled(s: State, step: Step)
    requires step.NotifierThread?
  {
    match s.npc
    case NStart => s.mutex == Free
    case NWoken => s.mutex == Free
    case NNotify => CanWake(s, step.wake)
    case NExit => CanWake(s, step.wake)
    case NAsleep => false
    case NDone => false
    case _ => true
  }

  function NotifierDo(s: State, step: Step): State
    requires step.NotifierThread? && NotifierEnabled(s, step)
  {
    match s.npc
    case NStart => s.(mutex := HeldByNotifier, npc := NJoin)
    case NJoin => if s.join then s.(npc := NExit) else s.(npc := NPark)
    case NPark => s.(mutex := Free, npc := NAsleep, nWaited := true)
    case NWoken => s.(mutex := HeldByNotifier, npc := NCheck)
    case NCheck => if s.waiting then s.(npc := NNotify) else s.(npc := NJoin)
    case NNotify => s.(npc := NJoin, tpc := WokenState(s.tpc, step.wake))
    case NExit => s.(mutex := Free, npc := NDone, tpc := WokenState(s.tpc, step.wake))
    case NAsleep => s
    case NDone => s
  }

  predicate Enabled(s: State, step: Step) {
    match step
    case StateThread(_, _, _, _) => StateEnabled(s, step)
    case NotifierThread(_) => NotifierEnabled(s, step)
    case WakeUpState => s.tpc.Asleep?
    case WakeUpNotifier => s.npc.NAsleep?
    case StoreState(p, i, _) => p !in s.producers && i < |s.streams|
    case Announce(p) => p in s.producers && s.producers[p].Stored?
    case NotifyOne(p, wake) => p in s.producers && s.producers[p].Flagged? && CanWake(s, wake)
    case StoreSilently(i, _) => i < |s.streams|
    case StoreJoin => !s.join
    case NotifyAll => s.join && !s.joinNotified
  }

  function Do(s: State, step: Step): State
    requires Enabled(s, step)
  {
    match step
    case StateThread(_, _, _, _) => StateDo(s, step)
    case NotifierThread(_) => NotifierDo(s, step)
    case WakeUpState => s.(tpc := Lock)
    case WakeUpNotifier => s.(npc := NWoken)
    case StoreState(p, i, st) =>
      s.(streams := s.streams[i := st], producers := s.producers[p := Stored(i)])
    case Announce(p) =>
      s.(waiting := true, announced := s.announced + {s.producers[p].i},
         producers := s.producers[p := Flagged])
    case NotifyOne(p, wake) =>
      s.(producers := s.producers - {p},
         tpc := WokenState(s.tpc, wake), npc := WokenNotifier(s.npc, wake))
    case StoreSilently(i, st) => s.(streams := s.streams[i := st])
    case StoreJoin => s.(join := true)
    case NotifyAll =>
      s.(joinNotified := true,
         tpc := if s.tpc.Asleep? then Lock else s.tpc,
         npc := if s.npc.NAsleep? then NWoken else s.npc)
  }

  /** The stream is on its way somewhere, or has to be shut down. */
  predicate InMotion(st: StreamState) {
    st == DRAINING || st == STARTING || st == STOPPING || st == ERROR
  }

  // ----- Runs -----

  predicate IsRun(s: State, steps: seq<Step>)
    decreases |steps|
  {
    steps == [] || (Enabled(s, steps[0]) && IsRun(Do(s, steps[0]), steps[1..]))
  }

  function Exec(s: State, steps: seq<Step>): State
    requires IsRun(s, steps)
    decreases |steps|
  {
    if steps == [] then s else Exec(Do(s, steps[0]), steps[1..])
  }

  // ----- The inductive invariant -----

  /** No producer stands between setting `waiting` and its notify_one. */
  ghost predicate NoPending(s: State) {
    forall p | p in s.producers :: !s.producers[p].Flagged?
  }

  predicate StateHoldsMutex(pc: StatePc) {
    !pc.Lock? && !pc.Asleep? && !pc.Done?
  }

  predicate NotifierHoldsMutex(pc: NotifierPc) {
    !pc.NStart? && !pc.NWoken? && !pc.NAsleep? && !pc.NDone?
  }

  ghost predicate MutexInv(s: State) {
    && (s.mutex == HeldByState <==> StateHoldsMutex(s.tpc))
    && (s.mutex == HeldByNotifier <==> NotifierHoldsMutex(s.npc))
  }

  /** The notifier is certain to read `waiting` before it sleeps again. */
  predicate WillLook(pc: NotifierPc) {
    pc.NWoken? || pc.NCheck? || pc.NNotify?
  }

  predicate Parked(pc: StatePc) {
    pc.Park? || pc == Asleep(false)
  }

  /** The bad state: both asleep, the state thread without a timeout, a change announced
      and nobody left to notify. */
  ghost predicate Lost(s: State) {
    s.tpc == Asleep(false) && s.npc == NAsleep && s.waiting && NoPending(s)
  }

  /** The guard that loses a wake-up at start-up: the notifier falls asleep for the first
      time, without having looked, on an announced change the state thread sleeps on. */
  ghost predicate FirstParkRaces(s: State, step: Step) {
    && step.NotifierThread? && s.npc == NPark && !s.nWaited
    && s.tpc == Asleep(false) && s.waiting && NoPending(s)
  }

  ghost predicate WakeInv(s: State) {
    && (s.npc == NAsleep || WillLook(s.npc) ==> s.nWaited)
    && (s.npc == NStart ==> !s.nWaited)
    && (s.nWaited && s.waiting && NoPending(s) && Parked(s.tpc)
        ==> WillLook(s.npc) || s.npc == NExit || Lost(s))
  }

  /** Past the check of `join`, or asleep after it: only a wake-up leads back to the check. */
  predicate InLoop(pc: StatePc) {
    !pc.Lock? && !pc.Join? && !pc.Exit? && !pc.Done?
  }

  ghost predicate JoinInv(s: State) {
    && (s.joinNotified ==> s.join)
    && (s.tpc.Exit? || s.tpc.Done? || s.npc.NExit? || s.npc.NDone? ==> s.join)
    && (s.npc == NDone ==> !InLoop(s.tpc))
    && (s.tpc == Done ==> s.npc != NPark && s.npc != NAsleep)
    && (s.joinNotified && InLoop(s.tpc) ==> s.npc != NPark && s.npc != NAsleep)
  }

  /** The scan still has to read the state of stream i. */
  predicate YetToRead(pc: StatePc, i: nat) {
    pc.Clear? || (pc.Scan? && (pc.i < i || (pc.i == i && BeforeRead(pc.u))))
  }

  predicate BeforeRead(u: UpdatePc) {
    u.Fast? || u.TryLock? || u.Requeue? || u.Locked?
  }

  ghost predicate AnnounceInv(s: State) {
    && |s.streams| == MAX_STREAMS
    && (s.tpc.Scan? ==> s.tpc.i < MAX_STREAMS)
    && (forall p | p in s.producers && s.producers[p].Stored? :: s.producers[p].i < MAX_STREAMS)
    && (forall i | i in s.announced :: i < MAX_STREAMS && (s.waiting || YetToRead(s.tpc, i)))
  }

  /** The thread's own flag says whether its last scan found streams in motion, and decides how it
      sleeps. */
  ghost predicate PollInv(s: State) {
    && (s.unsettled != {} ==> s.local)
    && (Parked(s.tpc) ==> !s.local)
    && (s.tpc.Scan? || s.tpc.Recheck? ==> (s.local <==> s.unsettled != {}))
    && (s.tpc.ParkTimed? || s.tpc == Asleep(true) ==> s.unsettled != {})
    && (s.tpc.Clear? ==> s.local)
    && (forall i | i in s.unsettled :: i < |s.streams| && (s.tpc.Scan? ==> i < s.tpc.i))
  }

  ghost predicate ControlInv(s: State) {
    MutexInv(s) && JoinInv(s)
  }

  ghost predicate Inv(s: State) {
    ControlInv(s) && WakeInv(s) && AnnounceInv(s) && PollInv(s)
  }

  lemma InitInv(s: State)
    requires Init(s)
    ensures Inv(s) && !Lost(s)
  {
  }

  lemma ControlState(s: State, step: Step)
    requires ControlInv(s) && Enabled(s, step) && step.StateThread?
    ensures ControlInv(Do(s, step))
  {
    match s.tpc
    case Lock =>
    case Join =>
    case Load =>
    case Park =>
    case ParkTimed =>
    case Clear =>
    case Recheck =>
    case Exit =>
    case Scan(_, _) => ControlScan(s, step);
    case _ =>
  }

  lemma ControlScan(s: State, step: Step)
    requires ControlInv(s) && Enabled(s, step) && step.StateThread? && s.tpc.Scan?
    ensures ControlInv(Do(s, step))
  {
    match s.tpc.u
    case Fast =>
    case TryLock =>
    case Requeue =>
    case RequeueNotify =>
    case Locked =>
    case Work =>
    case After =>
  }

  lemma ControlNotifier(s: State, step: Step)
    requires ControlInv(s) && Enabled(s, step) && step.NotifierThread?
    ensures ControlInv(Do(s, step))
  {
    match s.npc
    case NStart =>
    case NJoin =>
    case NPark =>
    case NWoken =>
    case NCheck =>
    case NNotify =>
    case NExit =>
    case _ =>
  }

  lemma ControlOthers(s: State, step: Step)
    requires ControlInv(s) && Enabled(s, step) && !step.StateThread? && !step.NotifierThread?
    ensures ControlInv(Do(s, step))
  {
    match step
    case WakeUpState =>
    case WakeUpNotifier =>
    case StoreState(p, i, st) =>
    case Announce(p) =>
    case NotifyOne(p, wake) =>
    case StoreSilently(i, st) =>
    case StoreJoin =>
    case NotifyAll =>
  }

  lemma WakeByState(s: State, step: Step)
    requires ControlInv(s) && WakeInv(s) && Enabled(s, step) && step.StateThread?
    ensures WakeInv(Do(s, step))
    ensures !Lost(s) ==> (Lost(Do(s, step)) <==> FirstParkRaces(s, step))
  {
    match s.tpc
    case Lock =>
    case Join =>
    case Load =>
    case Park =>
    case ParkTimed =>
    case Clear =>
    case Recheck =>
    case Exit =>
    case Scan(_, _) => WakeByScan(s, step);
    case _ =>
  }

  lemma WakeByScan(s: State, step: Step)
    requires ControlInv(s) && WakeInv(s) && Enabled(s, step) && step.StateThread? && s.tpc.Scan?
    ensures WakeInv(Do(s, step))
    ensures !Lost(s) ==> (Lost(Do(s, step)) <==> FirstParkRaces(s, step))
  {
    match s.tpc.u
    case Fast =>
    case TryLock =>
    case Requeue =>
    case RequeueNotify =>
    case Locked =>
    case Work =>
    case After =>
  }

  lemma WakeByNotifier(s: State, step: Step)
    requires ControlInv(s) && WakeInv(s) && Enabled(s, step) && step.NotifierThread?
    ensures WakeInv(Do(s, step))
    ensures !Lost(s) ==> (Lost(Do(s, step)) <==> FirstParkRaces(s, step))
  {
    match s.npc
    case NStart =>
    case NJoin =>
    case NPark =>
    case NWoken =>
    case NCheck =>
    case NNotify =>
    case NExit =>
    case _ =>
  }

  lemma StoringIsNotPending(s: State, step: Step)
    requires step.StoreState? && Enabled(s, step)
    ensures NoPending(Do(s, step)) <==> NoPending(s)
  {
    var s' := Do(s, step);
    forall p | p in s.producers
      ensures s'.producers[p] == s.producers[p]
    {
    }
  }

  lemma WakeByOthers(s: State, step: Step)
    requires ControlInv(s) && WakeInv(s) && Enabled(s, step) && !step.StateThread? && !step.NotifierThread?
    ensures WakeInv(Do(s, step))
    ensures !Lost(s) ==> (Lost(Do(s, step)) <==> FirstParkRaces(s, step))
  {
    match step
    case WakeUpState =>
    case WakeUpNotifier =>
    case StoreState(p, i, st) =>
      StoringIsNotPending(s, step);
    case Announce(p) => assert p in Do(s, step).producers && Do(s, step).producers[p].Flagged?;
    case NotifyOne(p, wake) =>
    case StoreSilently(i, st) =>
    case StoreJoin =>
    case NotifyAll =>
  }

  lemma AnnounceState(s: State, step: Step)
    requires AnnounceInv(s) && Enabled(s, step) && step.StateThread?
    ensures AnnounceInv(Do(s, step))
  {
    if s.tpc.Scan? {
      AnnounceScan(s, step);
    } else if s.tpc.Clear? {
      AnnounceClear(s, step);
    } else {
      StateFrame(s, step);
      AnnounceFrame(s, Do(s, step));
    }
  }

  lemma AnnounceClear(s: State, step: Step)
    requires AnnounceInv(s) && Enabled(s, step) && step.StateThread? && s.tpc.Clear?
    ensures AnnounceInv(Do(s, step))
  {
  }

  /** Outside the scan the state thread touches nothing of what is announced. */
  lemma StateFrame(s: State, step: Step)
    requires Enabled(s, step) && step.StateThread? && !s.tpc.Scan? && !s.tpc.Clear?
    ensures AnnouncePartKept(s, Do(s, step))
  {
    if s.tpc.Load? || s.tpc.Recheck? {
    } else if s.tpc.Exit? || s.tpc.Join? {
    } else {
    }
  }

  lemma AnnounceScan(s: State, step: Step)
    requires AnnounceInv(s) && Enabled(s, step) && step.StateThread? && s.tpc.Scan?
    ensures AnnounceInv(Do(s, step))
  {
    ScanKeepsAllAhead(s, Do(s, step), step);
    ScanRange(s, step);
  }

  lemma ScanKeepsAllAhead(s: State, s': State, step: Step)
    requires AnnounceInv(s) && step.StateThread? && s.tpc.Scan?
    requires s' == UpdateDo(s, step, s.tpc.i, s.tpc.u)
    ensures forall i | i in s'.announced :: i < MAX_STREAMS && (s'.waiting || YetToRead(s'.tpc, i))
  {
    AnnouncedOnlyShrinks(s, step, s.tpc.i, s.tpc.u);
    forall i | i in s'.announced
      ensures i < MAX_STREAMS && (s'.waiting || YetToRead(s'.tpc, i))
    {
      ScanKeepsAhead(s, s', step, i);
    }
  }

  lemma AnnouncedOnlyShrinks(s: State, step: Step, j: nat, u: UpdatePc)
    requires step.StateThread? && j < |s.streams|
    ensures UpdateDo(s, step, j, u).announced <= s.announced
  {
    UpdateClears(s, step, j, u);
  }

  lemma ScanRange(s: State, step: Step)
    requires step.StateThread? && s.tpc.Scan? && s.tpc.i < |s.streams|
    ensures var s' := UpdateDo(s, step, s.tpc.i, s.tpc.u);
            |s'.streams| == |s.streams| && s'.producers == s.producers
            && (s'.tpc.Scan? ==> s'.tpc.i < |s.streams|)
  {
    match s.tpc.u
    case Fast =>
    case TryLock =>
    case Requeue =>
    case RequeueNotify =>
    case Locked =>
    case Work =>
    case After =>
  }

  lemma ScanKeepsAhead(s: State, s': State, step: Step, i: nat)
    requires step.StateThread? && s.tpc.Scan? && s.tpc.i < |s.streams| && i < |s.streams|
    requires s' == UpdateDo(s, step, s.tpc.i, s.tpc.u)
    requires i in s'.announced && (i in s.announced ==> s.waiting || YetToRead(s.tpc, i))
    ensures i in s.announced && (s'.waiting || YetToRead(s'.tpc, i))
  {
    if s.tpc.u.Fast? || s.tpc.u.Locked? {
      ReadKeepsAhead(s, s', step, i);
    } else if s.tpc.u.TryLock? || s.tpc.u.Requeue? {
      LockKeepsAhead(s, s', step, i);
    } else {
      RestKeepsAhead(s, s', step, i);
    }
  }

  lemma LockKeepsAhead(s: State, s': State, step: Step, i: nat)
    requires step.StateThread? && s.tpc.Scan? && s.tpc.i < |s.streams| && i < |s.streams|
    requires s' == UpdateDo(s, step, s.tpc.i, s.tpc.u)
    requires i in s'.announced && (i in s.announced ==> s.waiting || YetToRead(s.tpc, i))
    requires s.tpc.u.TryLock? || s.tpc.u.Requeue?
    ensures i in s.announced && (s'.waiting || YetToRead(s'.tpc, i))
  {
    if s.tpc.u.TryLock? {
    } else {
    }
  }

  lemma RestKeepsAhead(s: State, s': State, step: Step, i: nat)
    requires step.StateThread? && s.tpc.Scan? && s.tpc.i < |s.streams| && i < |s.streams|
    requires s' == UpdateDo(s, step, s.tpc.i, s.tpc.u)
    requires i in s'.announced && (i in s.announced ==> s.waiting || YetToRead(s.tpc, i))
    requires s.tpc.u.RequeueNotify? || s.tpc.u.Work? || s.tpc.u.After?
    ensures i in s.announced && (s'.waiting || YetToRead(s'.tpc, i))
  {
    if s.tpc.u.RequeueNotify? {
    } else if s.tpc.u.Work? {
    } else {
    }
  }

  lemma ReadKeepsAhead(s: State, s': State, step: Step, i: nat)
    requires step.StateThread? && s.tpc.Scan? && s.tpc.i < |s.streams| && i < |s.streams|
    requires s' == UpdateDo(s, step, s.tpc.i, s.tpc.u)
    requires i in s'.announced && (i in s.announced ==> s.waiting || YetToRead(s.tpc, i))
    requires s.tpc.u.Fast? || s.tpc.u.Locked?
    ensures i in s.announced && (s'.waiting || YetToRead(s'.tpc, i))
  {
    if s.tpc.u.Fast? {
    } else {
    }
  }

  lemma AnnounceNotifier(s: State, step: Step)
    requires AnnounceInv(s) && Enabled(s, step) && step.NotifierThread?
    ensures AnnounceInv(Do(s, step))
  {
    NotifierFrame(s, step);
    AnnounceFrame(s, Do(s, step));
  }

  /** The notifier touches nothing but its own place, the mutex, and a sleeping state thread. */
  lemma NotifierFrame(s: State, step: Step)
    requires Enabled(s, step) && step.NotifierThread?
    ensures AnnouncePartKept(s, Do(s, step))
  {
    match s.npc
    case NStart =>
    case NJoin =>
    case NPark =>
    case NWoken =>
    case NCheck =>
    case NNotify =>
    case NExit =>
    case _ =>
  }

  ghost predicate AnnouncePartKept(s: State, s': State) {
    && s'.streams == s.streams && s'.producers == s.producers
    && s'.announced == s.announced && s'.waiting == s.waiting
    && (s'.tpc == s.tpc || (!s.tpc.Scan? && !s.tpc.Clear? && !s'.tpc.Scan?))
  }

  lemma AnnounceFrame(s: State, s': State)
    requires AnnounceInv(s) && AnnouncePartKept(s, s')
    ensures AnnounceInv(s')
  {
    forall i | i in s'.announced
      ensures i < MAX_STREAMS && (s'.waiting || YetToRead(s'.tpc, i))
    {
      assert s.waiting || YetToRead(s.tpc, i);
    }
  }

  lemma AnnounceOthers(s: State, step: Step)
    requires AnnounceInv(s) && Enabled(s, step) && !step.StateThread? && !step.NotifierThread?
    ensures AnnounceInv(Do(s, step))
  {
    match step
    case WakeUpState =>
    case WakeUpNotifier =>
    case StoreState(p, i, st) =>
    case Announce(p) =>
    case NotifyOne(p, wake) =>
    case StoreSilently(i, st) =>
    case StoreJoin =>
    case NotifyAll =>
  }

  lemma PollState(s: State, step: Step)
    requires PollInv(s) && Enabled(s, step) && step.StateThread?
    ensures PollInv(Do(s, step))
  {
    match s.tpc
    case Lock =>
    case Join =>
    case Load =>
    case Park =>
    case ParkTimed =>
    case Clear =>
    case Recheck =>
    case Exit =>
    case Scan(_, _) => PollScan(s, step);
    case _ =>
  }

  lemma PollScan(s: State, step: Step)
    requires PollInv(s) && Enabled(s, step) && step.StateThread? && s.tpc.Scan?
    ensures PollInv(Do(s, step))
  {
    if s.tpc.u.After? {
    } else {
      UpdateKeepsFlag(s, step, s.tpc.i, s.tpc.u);
    }
  }

  /** update_state itself is no part of the scan's own bookkeeping. */
  lemma UpdateKeepsFlag(s: State, step: Step, i: nat, u: UpdatePc)
    requires step.StateThread? && i < |s.streams| && !u.After?
    ensures var s' := UpdateDo(s, step, i, u);
            && s'.unsettled == s.unsettled && s'.local == s.local && |s'.streams| == |s.streams|
            && s'.tpc.Scan? && s'.tpc.i == i
  {
    match u
    case Fast =>
    case TryLock =>
    case Requeue =>
    case RequeueNotify =>
    case Locked =>
    case Work =>
  }

  lemma PollNotifier(s: State, step: Step)
    requires PollInv(s) && Enabled(s, step) && step.NotifierThread?
    ensures PollInv(Do(s, step))
  {
    NotifierFrame(s, step);
    NotifierWakes(s, step);
  }

  lemma NotifierWakes(s: State, step: Step)
    requires Enabled(s, step) && step.NotifierThread?
    ensures Do(s, step).unsettled == s.unsettled && Do(s, step).local == s.local
    ensures Do(s, step).tpc == s.tpc || (s.tpc.Asleep? && Do(s, step).tpc == Lock)
  {
    match s.npc
    case NNotify =>
    case NExit =>
    case _ =>
  }

  lemma PollOthers(s: State, step: Step)
    requires PollInv(s) && Enabled(s, step) && !step.StateThread? && !step.NotifierThread?
    ensures PollInv(Do(s, step))
  {
    match step
    case WakeUpState =>
    case WakeUpNotifier =>
    case StoreState(p, i, st) =>
    case Announce(p) =>
    case NotifyOne(p, wake) =>
    case StoreSilently(i, st) =>
    case StoreJoin =>
    case NotifyAll =>
  }

  lemma InvStep(s: State, step: Step)
    requires Inv(s) && Enabled(s, step)
    ensures Inv(Do(s, step))
  {
    if step.StateThread? {
      ControlState(s, step); WakeByState(s, step); AnnounceState(s, step); PollState(s, step);
    } else if step.NotifierThread? {
      ControlNotifier(s, step); WakeByNotifier(s, step); AnnounceNotifier(s, step); PollNotifier(s, step);
    } else {
      ControlOthers(s, step); WakeByOthers(s, step); AnnounceOthers(s, step); PollOthers(s, step);
    }
  }

  lemma {:induction false} InvRun(s: State, steps: seq<Step>)
    requires Inv(s) && IsRun(s, steps)
    ensures Inv(Exec(s, steps))
    decreases |steps|
  {
    if steps != [] {
      InvStep(s, steps[0]);
      InvRun(Do(s, steps[0]), steps[1..]);
    }
  }

  // ----- No lost wake-up -----

  lemma LostOnlyAtFirstPark(s: State, step: Step)
    requires Inv(s) && !Lost(s) && Enabled(s, step)
    ensures Lost(Do(s, step)) <==> FirstParkRaces(s, step)
  {
    if step.StateThread? {
      WakeByState(s, step);
    } else if step.NotifierThread? {
      WakeByNotifier(s, step);
    } else {
      WakeByOthers(s, step);
    }
  }

  ghost predicate EverLost(s: State, steps: seq<Step>)
    requires IsRun(s, steps)
    decreases |steps|
  {
    Lost(s) || (steps != [] && EverLost(Do(s, steps[0]), steps[1..]))
  }

  ghost predicate EverRaces(s: State, steps: seq<Step>)
    requires IsRun(s, steps)
    decreases |steps|
  {
    steps != [] && (FirstParkRaces(s, steps[0]) || EverRaces(Do(s, steps[0]), steps[1..]))
  }

  /** Over every run a wake-up is lost exactly if the notifier's very first wait races. */
  lemma {:induction false} LostWakeUpIff(s: State, steps: seq<Step>)
    requires Inv(s) && !Lost(s) && IsRun(s, steps)
    ensures EverLost(s, steps) <==> EverRaces(s, steps)
    decreases |steps|
  {
    if steps != [] {
      var s' := Do(s, steps[0]);
      InvStep(s, steps[0]);
      LostOnlyAtFirstPark(s, steps[0]);
      if !Lost(s') {
        LostWakeUpIff(s', steps[1..]);
      }
    }
  }

  /** Once the notifier is past its first wait without that race, no run loses a wake-up. */
  lemma {:induction false} NoLostWakeUp(s: State, steps: seq<Step>)
    requires Inv(s) && s.nWaited && !Lost(s) && IsRun(s, steps)
    ensures !EverLost(s, steps) && !Lost(Exec(s, steps)) && Exec(s, steps).nWaited
    decreases |steps|
  {
    if steps != [] {
      InvStep(s, steps[0]);
      LostOnlyAtFirstPark(s, steps[0]);
      WaitedStays(s, steps[0]);
      NoLostWakeUp(Do(s, steps[0]), steps[1..]);
    }
  }

  lemma WaitedStays(s: State, step: Step)
    requires s.nWaited && Enabled(s, step)
    ensures Do(s, step).nWaited
  {
    match step
    case StateThread(_, _, _, _) =>
    case NotifierThread(_) =>
    case _ =>
  }

  /** The start-up race is real: a run from the initial state into a lost wake-up. */
  lemma StartUpCanLose(s: State) returns (steps: seq<Step>)
    requires Init(s)
    ensures IsRun(s, steps) && EverLost(s, steps)
  {
    var t := StateThread(NoOne, true, false, INIT);
    var n := NotifierThread(NoOne);
    var s3 := Do(Do(Do(s, t), t), t);
    var producer := [StoreState(0, 0, ERROR), Announce(0), NotifyOne(0, NoOne)];
    var s6 := Do(Do(Do(s3, producer[0]), producer[1]), producer[2]);
    assert s6.tpc == Park && s6.waiting && s6.producers == map[];
    var s10 := Do(Do(Do(Do(s6, t), n), n), n);
    assert Lost(s10);
    steps := [n];
    steps := Prepend(Do(Do(Do(s6, t), n), n), n, []);
    steps := Prepend(Do(Do(s6, t), n), n, steps);
    steps := Prepend(Do(s6, t), n, steps);
    steps := Prepend(s6, t, steps);
    steps := Prepend(Do(Do(s3, producer[0]), producer[1]), producer[2], steps);
    steps := Prepend(Do(s3, producer[0]), producer[1], steps);
    steps := Prepend(s3, producer[0], steps);
    steps := Prepend(Do(Do(s, t), t), t, steps);
    steps := Prepend(Do(s, t), t, steps);
    steps := Prepend(s, t, steps);
  }

  lemma Prepend(s: State, step: Step, rest: seq<Step>) returns (steps: seq<Step>)
    requires Enabled(s, step) && IsRun(Do(s, step), rest) && EverLost(Do(s, step), rest)
    ensures IsRun(s, steps) && EverLost(s, steps) && steps == [step] + rest
  {
    steps := [step] + rest;
    assert steps[0] == step && steps[1..] == rest;
  }

  /** With the state thread asleep, the notifier's backup notification reaches it. */
  lemma BackupReachesStateThread(s: State, step: Step)
    requires Inv(s) && s.tpc.Asleep? && Enabled(s, step) && step.NotifierThread?
    requires s.npc == NNotify || s.npc == NExit
    ensures Do(s, step).tpc == Lock
  {
  }

  // ----- No announced change is dropped -----

  /** At every state of every run from the start, an announced change that update_state has
      not read since is flagged by `waiting`, or still ahead of the scan under way. */
  lemma AnnouncedIsNeverDropped(s0: State, steps: seq<Step>, i: nat)
    requires Init(s0) && IsRun(s0, steps) && i in Exec(s0, steps).announced
    ensures var s := Exec(s0, steps); s.waiting || YetToRead(s.tpc, i)
  {
    InitInv(s0);
    InvRun(s0, steps);
  }

  /** Only a read of the stream state by update_state takes a stream off the announced ones:
      the first read if it finds nothing to do, else the one under the stream's lock. */
  lemma OnlyReadsClear(s: State, step: Step, i: nat)
    requires Enabled(s, step) && i in s.announced && i !in Do(s, step).announced
    ensures step.StateThread? && i < |s.streams|
    ensures s.tpc == Scan(i, Locked) || (s.tpc == Scan(i, Fast) && Settled(s.streams[i]))
  {
    if step.NotifierThread? {
      NotifierFrame(s, step);
    } else if step.StateThread? {
      if s.tpc.Scan? {
        UpdateClears(s, step, s.tpc.i, s.tpc.u);
      } else {
        NoClearOutsideScan(s, step);
      }
    } else {
      match step
      case Announce(_) =>
      case _ =>
    }
  }

  lemma UpdateClears(s: State, step: Step, j: nat, u: UpdatePc)
    requires step.StateThread? && j < |s.streams|
    ensures UpdateDo(s, step, j, u).announced
            == if u.Locked? || (u.Fast? && Settled(s.streams[j])) then s.announced - {j} else s.announced
  {
    match u
    case Fast =>
    case TryLock =>
    case Requeue =>
    case RequeueNotify =>
    case Locked =>
    case Work =>
    case After =>
  }

  lemma NoClearOutsideScan(s: State, step: Step)
    requires step.StateThread? && StateEnabled(s, step) && !s.tpc.Scan?
    ensures StateDo(s, step).announced == s.announced
  {
    match s.tpc {
      case Exit =>
      case _ =>
    }
  }

  /** The state thread never sleeps on an announced change without somebody about to wake it. */
  lemma AnnouncedIsNotSleptOn(s: State, steps: seq<Step>, i: nat)
    requires Inv(s) && s.nWaited && !Lost(s) && IsRun(s, steps)
    requires i in Exec(s, steps).announced && Exec(s, steps).tpc == Asleep(false)
    ensures var s' := Exec(s, steps);
            s'.waiting && (!NoPending(s') || WillLook(s'.npc) || s'.npc == NExit)
  {
    NoLostWakeUp(s, steps);
    InvRun(s, steps);
  }

  // ----- Announced changes are read in time -----

  /** The scan under way is still to read stream i. */
  predicate Ahead(pc: StatePc, i: nat) {
    pc.Scan? && (pc.i < i || (pc.i == i && (pc.u.Fast? || pc.u.TryLock? || pc.u.Locked?)))
  }

  function UpdateRank(u: UpdatePc): nat {
    match u
    case Fast => 6
    case TryLock => 5
    case Requeue => 4
    case RequeueNotify => 3
    case Locked => 4
    case Work => 2
    case After => 1
  }

  /** How many moves the state thread makes at most before it is done with stream i. */
  function ReadRank(pc: StatePc, i: nat): (r: nat)
    requires i < MAX_STREAMS
    ensures r <= 20 * MAX_STREAMS + 20
  {
    match pc
    case Scan(j, u) =>
      if Ahead(pc, i) then 10 * (i - j) + UpdateRank(u)
      else (if j < MAX_STREAMS then 10 * (MAX_STREAMS - j) else 0) + UpdateRank(u) + 10 * MAX_STREAMS + 14
    case Clear => 10 * MAX_STREAMS + 7
    case Load => 10 * MAX_STREAMS + 8
    case Join => 10 * MAX_STREAMS + 9
    case Lock => 10 * MAX_STREAMS + 10
    case Asleep(timed) => if timed then 10 * MAX_STREAMS + 11 else 0
    case ParkTimed => 10 * MAX_STREAMS + 12
    case Recheck => 10 * MAX_STREAMS + 13
    case Park => 0
    case Exit => 0
    case Done => 0
  }

  /** The state thread is up and has not seen `join`. */
  predicate Awake(pc: StatePc) {
    !pc.Asleep? && !pc.Exit? && !pc.Done?
  }

  /** The state thread is done with stream i for now: it reads its announced state, or finds the
      stream locked, or goes to sleep, or finds `join` set. */
  predicate Attends(s: State, step: Step, i: nat)
    requires Enabled(s, step)
  {
    && step.StateThread?
    && (i !in Do(s, step).announced
        || (s.tpc == Scan(i, TryLock) && !step.lockFree)
        || s.tpc.Park? || s.tpc.ParkTimed?
        || (s.tpc.Join? && s.join))
  }

  /** A move of the state thread that does not attend to an announced stream brings it nearer. */
  lemma MoveBringsNearer(s: State, step: Step, i: nat)
    requires Inv(s) && Enabled(s, step) && step.StateThread? && Awake(s.tpc)
    requires i < MAX_STREAMS && i in s.announced && !Attends(s, step, i)
    ensures Awake(Do(s, step).tpc) && ReadRank(Do(s, step).tpc, i) < ReadRank(s.tpc, i)
  {
    if s.tpc.Scan? {
      ScanBringsNearer(s, step, s.tpc.i, s.tpc.u, i);
    } else if s.tpc.Load? || s.tpc.Recheck? {
      assert s.waiting;
    } else if s.tpc.Clear? || s.tpc.Lock? {
    } else {
    }
  }

  lemma ScanBringsNearer(s: State, step: Step, j: nat, u: UpdatePc, i: nat)
    requires step.StateThread? && s.tpc == Scan(j, u) && j < |s.streams| == MAX_STREAMS && i < MAX_STREAMS
    requires i in UpdateDo(s, step, j, u).announced && !(j == i && u.TryLock? && !step.lockFree)
    ensures Awake(UpdateDo(s, step, j, u).tpc) && ReadRank(UpdateDo(s, step, j, u).tpc, i) < ReadRank(s.tpc, i)
  {
    if u.After? {
    } else if u.Fast? || u.TryLock? || u.Locked? {
      ReadBringsNearer(s, step, j, u, i);
    } else {
    }
  }

  lemma ReadBringsNearer(s: State, step: Step, j: nat, u: UpdatePc, i: nat)
    requires step.StateThread? && s.tpc == Scan(j, u) && j < |s.streams| == MAX_STREAMS && i < MAX_STREAMS
    requires i in UpdateDo(s, step, j, u).announced && !(j == i && u.TryLock? && !step.lockFree)
    requires u.Fast? || u.TryLock? || u.Locked?
    ensures Awake(UpdateDo(s, step, j, u).tpc) && ReadRank(UpdateDo(s, step, j, u).tpc, i) < ReadRank(s.tpc, i)
  {
    if u.Fast? {
      FastBringsNearer(s, step, j, i);
    } else if u.TryLock? {
    } else {
    }
  }

  lemma FastBringsNearer(s: State, step: Step, j: nat, i: nat)
    requires step.StateThread? && s.tpc == Scan(j, Fast) && j < |s.streams| == MAX_STREAMS && i < MAX_STREAMS
    requires i in UpdateDo(s, step, j, Fast).announced
    ensures var t := UpdateDo(s, step, j, Fast); Awake(t.tpc) && ReadRank(t.tpc, i) < ReadRank(s.tpc, i)
  {
  }

  /** The steps of all others leave an awake state thread where it is, and announce at most. */
  lemma OthersLeaveAwake(s: State, step: Step, i: nat)
    requires Enabled(s, step) && !step.StateThread? && Awake(s.tpc)
    requires i in s.announced
    ensures Do(s, step).tpc == s.tpc && i in Do(s, step).announced
  {
    if step.NotifierThread? {
      match s.npc {
        case NNotify =>
        case NExit =>
        case _ =>
      }
    } else {
      match step
      case NotifyOne(p, wake) =>
      case _ =>
    }
  }

  ghost predicate EverAttends(s: State, steps: seq<Step>, i: nat)
    requires IsRun(s, steps)
    decreases |steps|
  {
    steps != [] && (Attends(s, steps[0], i) || EverAttends(Do(s, steps[0]), steps[1..], i))
  }

  function StateMoves(steps: seq<Step>): nat {
    if steps == [] then 0 else (if steps[0].StateThread? then 1 else 0) + StateMoves(steps[1..])
  }

  /** While the state thread is up, an announced stream is attended to within ReadRank of its own
      moves, in any run, whatever all others do meanwhile. */
  lemma {:induction false} AnnouncedIsAttendedTo(s: State, steps: seq<Step>, i: nat)
    requires Inv(s) && Awake(s.tpc) && i < MAX_STREAMS && i in s.announced
    requires IsRun(s, steps) && StateMoves(steps) > ReadRank(s.tpc, i)
    ensures EverAttends(s, steps, i)
    decreases |steps|
  {
    if !Attends(s, steps[0], i) {
      InvStep(s, steps[0]);
      if steps[0].StateThread? {
        MoveBringsNearer(s, steps[0], i);
      } else {
        OthersLeaveAwake(s, steps[0], i);
      }
      AnnouncedIsAttendedTo(Do(s, steps[0]), steps[1..], i);
    }
  }

  // ----- Streams in motion are served -----

  /** The state thread sleeps untimed only if its last scan found no stream in motion, and with a
      timeout only if it found one; and from the scan it goes to that sleep exactly if it found one
      and nothing has been announced meanwhile. */
  lemma SleepsTimedIff(s0: State, steps: seq<Step>, step: Step)
    requires Init(s0) && IsRun(s0, steps) && Enabled(Exec(s0, steps), step)
    ensures var s := Exec(s0, steps);
            && (s.tpc.Park? || s.tpc == Asleep(false) ==> s.unsettled == {})
            && (s.tpc.ParkTimed? || s.tpc == Asleep(true) ==> s.unsettled != {})
            && (s.tpc.Recheck? && step.StateThread? ==>
                  (Do(s, step).tpc.ParkTimed? <==> s.unsettled != {} && !s.waiting))
  {
    InitInv(s0);
    InvRun(s0, steps);
  }

  /** update_state goes to work on a stream, under its lock, exactly if both its reads find the stream
      in motion and the lock is free. */
  lemma WorksIff(s: State, step: Step, i: nat)
    requires Enabled(s, step) && step.StateThread? && i < |s.streams|
    ensures s.tpc == Scan(i, Fast) ==> (Do(s, step).tpc == Scan(i, TryLock) <==> InMotion(s.streams[i]))
    ensures s.tpc == Scan(i, TryLock) ==> (Do(s, step).tpc == Scan(i, Locked) <==> step.lockFree)
    ensures s.tpc == Scan(i, Locked) ==> (Do(s, step).tpc == Scan(i, Work) <==> InMotion(s.streams[i]))
  {
    WaitingIsUnsettled(s.streams[i]);
  }

  // ----- With nothing to do the state thread goes to sleep -----

  predicate AllSettled(s: State) {
    forall i | 0 <= i < |s.streams| :: !InMotion(s.streams[i])
  }

  /** A step of the state thread, of the notifier, or a wake-up: nobody stores or announces. */
  predicate Quiet(step: Step) {
    step.StateThread? || step.NotifierThread? || step.WakeUpNotifier?
  }

  /** About to scan, in a scan that has found nothing, or behind it. */
  predicate Idling(s: State) {
    && !s.join && AllSettled(s) && |s.streams| == MAX_STREAMS
    && (s.tpc.Clear? || (!s.local && !s.waiting && AfterClear(s.tpc)))
  }

  predicate AfterClear(pc: StatePc) {
    pc.Recheck? || pc.Join? || pc.Load? || pc.Park? || pc == Asleep(false)
    || (pc.Scan? && pc.i < MAX_STREAMS && (pc.u.Fast? || pc.u.After?))
  }

  function IdleRank(pc: StatePc): nat {
    match pc
    case Clear => 2 * MAX_STREAMS + 5
    case Scan(i, u) => (if i < MAX_STREAMS then 2 * (MAX_STREAMS - i) else 0) + (if u.Fast? then 4 else 3)
    case Recheck => 4
    case Join => 3
    case Load => 2
    case Park => 1
    case _ => 0
  }

  lemma IdleMove(s: State, step: Step)
    requires Idling(s) && Enabled(s, step) && step.StateThread?
    ensures Idling(Do(s, step)) && IdleRank(Do(s, step).tpc) < IdleRank(s.tpc)
  {
    if s.tpc.Scan? {
      if s.tpc.u.Fast? {
        assert !InMotion(s.streams[s.tpc.i]);
      } else {
        assert !InMotion(s.streams[s.tpc.i]);
      }
    }
  }

  lemma IdleOthers(s: State, step: Step)
    requires Idling(s) && Enabled(s, step) && Quiet(step) && !step.StateThread?
    requires ControlInv(s) && s.npc != NNotify && s.npc != NExit
    requires s.tpc.Clear? ==> s.mutex == HeldByState
    ensures Idling(Do(s, step)) && Do(s, step).tpc == s.tpc && Do(s, step).npc != NNotify && Do(s, step).npc != NExit
  {
    if step.NotifierThread? {
      NotifierFrame(s, step);
      match s.npc
      case NCheck =>
      case NJoin =>
      case _ =>
    }
  }

  /** With no stream in motion, and nobody storing or announcing, the state thread is asleep without
      a timeout after one scan: at most 2 * MAX_STREAMS + 5 moves. */
  lemma {:induction false} SettledFallsAsleep(s: State, steps: seq<Step>)
    requires Inv(s) && Idling(s) && s.npc != NNotify && s.npc != NExit && IsRun(s, steps)
    requires forall k | 0 <= k < |steps| :: Quiet(steps[k])
    ensures var s' := Exec(s, steps);
            Idling(s') && StateMoves(steps) + IdleRank(s'.tpc) <= IdleRank(s.tpc)
            && (IdleRank(s'.tpc) == 0 <==> s'.tpc == Asleep(false))
    decreases |steps|
  {
    if steps != [] {
      InvStep(s, steps[0]);
      if steps[0].StateThread? {
        IdleMove(s, steps[0]);
      } else {
        IdleOthers(s, steps[0]);
      }
      SettledFallsAsleep(Do(s, steps[0]), steps[1..]);
    }
  }

  /** Stream i was found in motion, and update_state has not got to it since. */
  predicate Due(s: State, i: nat) {
    i in s.unsettled || Ahead(s.tpc, i)
  }

  /** The state thread serves stream i: it finds nothing to do for it any more, or goes to work on it
      under its lock, or finds it locked, or finds `join` set. */
  predicate Serves(s: State, step: Step, i: nat)
    requires Enabled(s, step)
  {
    && step.StateThread?
    && ((s.tpc == Scan(i, Fast) && Settled(s.streams[i]))
        || (s.tpc == Scan(i, TryLock) && !step.lockFree)
        || (s.tpc == Scan(i, Locked) && (Settled(s.streams[i]) || Do(s, step).tpc == Scan(i, Work)))
        || (s.tpc.Join? && s.join))
  }

  predicate Leaves(pc: StatePc) {
    pc.Exit? || pc.Done?
  }

  /** Until then each move of the state thread, and each wake-up, brings that nearer. */
  lemma ServiceComesNearer(s: State, step: Step, i: nat)
    requires Inv(s) && Enabled(s, step) && step.StateThread? && !Leaves(s.tpc)
    requires i < MAX_STREAMS && Due(s, i) && !Serves(s, step, i)
    ensures Due(Do(s, step), i) && !Leaves(Do(s, step).tpc) && ReadRank(Do(s, step).tpc, i) < ReadRank(s.tpc, i)
  {
    if s.tpc.Scan? {
      PollScanNearer(s, step, s.tpc.i, s.tpc.u, i);
    } else if s.tpc.Load? || s.tpc.Recheck? {
    } else if s.tpc.Clear? || s.tpc.Lock? {
    } else {
    }
  }

  lemma PollScanNearer(s: State, step: Step, j: nat, u: UpdatePc, i: nat)
    requires Inv(s) && Enabled(s, step) && step.StateThread? && s.tpc == Scan(j, u) && i < MAX_STREAMS
    requires Due(s, i) && !Serves(s, step, i)
    ensures var t := UpdateDo(s, step, j, u); Due(t, i) && !Leaves(t.tpc) && ReadRank(t.tpc, i) < ReadRank(s.tpc, i)
  {
    if u.After? {
    } else {
      UpdateKeepsFlag(s, step, j, u);
      UpdateUsesRank(s, step, j, u);
      if j == i {
        assert i !in s.unsettled;
        OwnUpdateNearer(s, step, i, u);
      }
    }
  }

  lemma OwnUpdateNearer(s: State, step: Step, i: nat, u: UpdatePc)
    requires Enabled(s, step) && step.StateThread? && s.tpc == Scan(i, u) && i < |s.streams|
    requires Ahead(s.tpc, i) && !Serves(s, step, i)
    ensures Ahead(UpdateDo(s, step, i, u).tpc, i)
  {
  }

  lemma UpdateUsesRank(s: State, step: Step, i: nat, u: UpdatePc)
    requires step.StateThread? && i < |s.streams| && !u.After?
    ensures UpdateDo(s, step, i, u).tpc.Scan? && UpdateRank(UpdateDo(s, step, i, u).tpc.u) < UpdateRank(u)
  {
    match u
    case Fast =>
    case TryLock =>
    case Requeue =>
    case RequeueNotify =>
    case Locked =>
    case Work =>
  }

  /** All other steps leave that as it is, or wake the thread. */
  lemma OthersKeepDue(s: State, step: Step, i: nat)
    requires Inv(s) && Enabled(s, step) && !step.StateThread? && !Leaves(s.tpc)
    requires i < MAX_STREAMS && Due(s, i)
    ensures Due(Do(s, step), i) && !Leaves(Do(s, step).tpc) && ReadRank(Do(s, step).tpc, i) <= ReadRank(s.tpc, i)
  {
    match step
    case NotifierThread(_) =>
      NotifierFrame(s, step);
      NotifierWakes(s, step);
    case _ =>
  }

  ghost predicate EverServes(s: State, steps: seq<Step>, i: nat)
    requires IsRun(s, steps)
    decreases |steps|
  {
    steps != [] && (Serves(s, steps[0], i) || EverServes(Do(s, steps[0]), steps[1..], i))
  }

  /** A stream found in motion is served again: in any run the state thread does so within ReadRank
      of its own moves, and until then it is never asleep without a timeout. */
  lemma {:induction false} MotionIsServed(s: State, steps: seq<Step>, i: nat)
    requires Inv(s) && i < MAX_STREAMS && Due(s, i) && !Leaves(s.tpc) && IsRun(s, steps)
    ensures EverServes(s, steps, i)
            || (StateMoves(steps) + ReadRank(Exec(s, steps).tpc, i) <= ReadRank(s.tpc, i) && !Parked(Exec(s, steps).tpc))
    decreases |steps|
  {
    if steps != [] && !Serves(s, steps[0], i) {
      InvStep(s, steps[0]);
      if steps[0].StateThread? {
        ServiceComesNearer(s, steps[0], i);
      } else {
        OthersKeepDue(s, steps[0], i);
      }
      MotionIsServed(Do(s, steps[0]), steps[1..], i);
    }
  }

  // ----- Joining -----

  function StateRank(pc: StatePc): nat {
    match pc
    case Done => 0
    case Exit => 1
    case Join => 2
    case Lock => 3
    case Asleep(_) => 4
    case Park => 5
    case ParkTimed => 5
    case Recheck => 6
    case Scan(i, u) =>
      (if i < MAX_STREAMS then 10 * (MAX_STREAMS - i) else 0) +
      (match u
       case Fast => 6 case TryLock => 5 case Requeue => 4 case RequeueNotify => 3
       case Locked => 3 case Work => 2 case After => 1)
    case Clear => 10 * MAX_STREAMS + 7
    case Load => 10 * MAX_STREAMS + 8
  }

  function NotifierRank(pc: NotifierPc): nat {
    match pc
    case NDone => 0
    case NExit => 1
    case NJoin => 2
    case NStart => 3
    case NNotify => 3
    case NCheck => 4
    case NWoken => 5
    case NAsleep => 6
    case NPark => 7
  }

  function Rank(s: State): nat {
    StateRank(s.tpc) + NotifierRank(s.npc)
  }

  predicate Joined(s: State) {
    s.tpc == Done && s.npc == NDone
  }

  /** After the broadcast no state is stuck: unless both threads have left, one of them can
      move, without any spurious wake-up or timeout. */
  lemma JoinNeverStuck(s: State) returns (step: Step)
    requires Inv(s) && s.joinNotified && !Joined(s)
    ensures (step.StateThread? || step.NotifierThread?) && Enabled(s, step)
  {
    var wake := if s.tpc.Asleep? then WakeState else if s.npc.NAsleep? then WakeNotifier else NoOne;
    if s.mutex == HeldByState || (s.mutex == Free && s.tpc == Lock) {
      step := StateThread(wake, true, false, INIT);
    } else {
      step := NotifierThread(wake);
    }
  }

  /** After the broadcast every move of the two threads uses up rank, and nothing adds any. */
  lemma JoinRank(s: State, step: Step)
    requires Inv(s) && s.joinNotified && Enabled(s, step)
    ensures Rank(Do(s, step)) + (if step.StateThread? || step.NotifierThread? then 1 else 0) <= Rank(s)
    ensures Do(s, step).joinNotified
  {
    if step.StateThread? {
      JoinRankState(s, step);
    } else {
      match step
      case NotifierThread(_) =>
        match s.npc {
          case NNotify =>
          case NExit =>
          case _ =>
        }
      case _ =>
    }
  }

  lemma JoinRankState(s: State, step: Step)
    requires Inv(s) && s.joinNotified && Enabled(s, step) && step.StateThread?
    ensures Rank(Do(s, step)) < Rank(s) && Do(s, step).joinNotified
  {
    if s.tpc.Scan? {
      JoinRankScan(s, step, s.tpc.i, s.tpc.u);
    } else if s.tpc.Exit? || s.tpc.Lock? || s.tpc.Join? {
    } else {
    }
  }

  lemma JoinRankScan(s: State, step: Step, i: nat, u: UpdatePc)
    requires s.tpc == Scan(i, u) && i < |s.streams| == MAX_STREAMS && step.StateThread?
    requires u.RequeueNotify? && step.wake.WakeNotifier? ==> s.npc == NAsleep
    ensures Rank(UpdateDo(s, step, i, u)) < Rank(s)
    ensures UpdateDo(s, step, i, u).joinNotified == s.joinNotified
  {
    match u
    case Fast =>
    case TryLock =>
    case Requeue =>
    case RequeueNotify =>
    case Locked =>
    case Work =>
    case After =>
  }

  function ThreadMoves(steps: seq<Step>): nat {
    if steps == [] then 0
    else (if steps[0].StateThread? || steps[0].NotifierThread? then 1 else 0) + ThreadMoves(steps[1..])
  }

  /** Join reaches both threads: after the broadcast they make at most Rank more moves in any
      run, and a run in which neither can move any more has seen both leave. */
  lemma {:induction false} JoinReachesBoth(s: State, steps: seq<Step>)
    requires Inv(s) && s.joinNotified && IsRun(s, steps)
    ensures ThreadMoves(steps) + Rank(Exec(s, steps)) <= Rank(s)
    ensures (forall step :: Enabled(Exec(s, steps), step)
                            ==> !step.StateThread? && !step.NotifierThread?)
            ==> Joined(Exec(s, steps))
    decreases |steps|
  {
    if steps != [] {
      InvStep(s, steps[0]);
      JoinRank(s, steps[0]);
      JoinReachesBoth(Do(s, steps[0]), steps[1..]);
    } else if !Joined(s) {
      var step := JoinNeverStuck(s);
    }
  }
}
