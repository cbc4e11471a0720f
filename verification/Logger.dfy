/** The asynchronous logger as an ownership protocol. Queues are addresses; an address may be
    handed out again once freed, so a pusher's stale pointer can meet a new queue. One step is
    one atomic access, one allocation or deletion, or one queue operation. */
module Logger {

  /** 0 is the null pointer. */
  type Address = nat

  datatype Pusher =
    | Loaded(q: Address)     // read msg_queue; about to compare-exchange
    | Holding(q: Address)    // took the queue; about to enqueue
    | Enqueued(q: Address)   // about to store the queue back

  datatype Control =
    | Idle
    | StoreQueue(q: Address)     // start: allocated
    | StoreConsumer(q: Address)
    | ClearShutdown(q: Address)
    | Launch(q: Address)
    | JoinThread                 // stop: shutdown requested
    | LoadQueue
    | Take(owned: Address)       // compare-exchange loop
    | Delete(owned: Address)
    | ClearConsumer

  datatype Thread = Off | Check | LoadConsumer | Dequeue(q: Address) | Sleep | Ended

  datatype State = State(
    msgQueue: Address,
    consumer: Address,
    shutdown: bool,
    live: set<Address>,
    pushers: map<nat, Pusher>,
    control: Control,
    thread: Thread,
    lost: set<Address>       // queues a store to msg_queue replaced: nothing leads to them again
  )

  datatype Step =
    | Push(p: nat)           // a pusher not under way loads msg_queue
    | PushStep(p: nat)
    | Start(q: Address)
    | Stop
    | ControlStep(spurious: bool)
    | ThreadStep(got: bool)

  ghost predicate Init(s: State) {
    && s.msgQueue == 0 && s.consumer == 0 && !s.shutdown && s.live == {}
    && s.pushers == map[] && s.control == Idle && s.thread == Off && s.lost == {}
  }

  predicate Enabled(s: State, step: Step) {
    match step
    case Push(p) => p !in s.pushers
    case PushStep(p) => p in s.pushers
    case Start(q) => s.control.Idle? && s.thread.Off? && q != 0 && q !in s.live
    case Stop => s.control.Idle?
    case ControlStep(_) => !s.control.Idle? && (s.control.JoinThread? ==> s.thread.Ended?)
    case ThreadStep(_) => !s.thread.Off? && !s.thread.Ended?
  }

  /** A plain store to msg_queue; it may replace a queue nobody holds. */
  function Store(s: State, q: Address): State {
    s.(msgQueue := q, lost := s.lost + (if s.msgQueue != 0 then {s.msgQueue} else {}))
  }

  function PushDo(s: State, p: nat): State
    requires p in s.pushers
  {
    match s.pushers[p]
    case Loaded(q) =>
      if s.msgQueue == q then s.(msgQueue := 0, pushers := s.pushers[p := Holding(q)])
      else s.(pushers := s.pushers - {p})
    case Holding(q) => s.(pushers := s.pushers[p := Enqueued(q)])
    case Enqueued(q) => Store(s, q).(pushers := s.pushers - {p})
  }

  function ControlDo(s: State, spurious: bool): State {
    match s.control
    case Idle => s
    case StoreQueue(q) => Store(s, q).(control := StoreConsumer(q))
    case StoreConsumer(q) => s.(consumer := q, control := ClearShutdown(q))
    case ClearShutdown(q) => s.(shutdown := false, control := Launch(q))
    case Launch(_) => s.(thread := Check, control := Idle)
    case JoinThread => s.(thread := Off, control := LoadQueue)
    case LoadQueue => s.(control := Take(s.msgQueue))
    case Take(owned) =>
      if s.msgQueue == owned && !spurious then s.(msgQueue := 0, control := Delete(owned))
      else s.(control := Take(s.msgQueue))
    case Delete(owned) => s.(live := s.live - {owned}, control := ClearConsumer)
    case ClearConsumer => s.(consumer := 0, control := Idle)
  }

  function ThreadDo(s: State, got: bool): State {
    match s.thread
    case Off => s
    case Ended => s
    case Check => s.(thread := if s.shutdown then Ended else LoadConsumer)
    case LoadConsumer => s.(thread := Dequeue(s.consumer))
    case Dequeue(_) => s.(thread := if got then LoadConsumer else Sleep)
    case Sleep => s.(thread := Check)
  }

  function Do(s: State, step: Step): State
    requires Enabled(s, step)
  {
    match step
    case Push(p) => if s.msgQueue == 0 then s else s.(pushers := s.pushers[p := Loaded(s.msgQueue)])
    case PushStep(p) => PushDo(s, p)
    case Start(q) => s.(live := s.live + {q}, control := StoreQueue(q))
    case Stop => s.(shutdown := true, control := if s.thread.Off? then Idle else JoinThread)
    case ControlStep(spurious) => ControlDo(s, spurious)
    case ThreadStep(got) => ThreadDo(s, got)
  }

  // ----- The inductive invariant -----

  predicate Holds(pushers: map<nat, Pusher>, p: nat, q: Address) {
    p in pushers && !pushers[p].Loaded? && pushers[p].q == q
  }

  /** The queue only the control thread knows: allocated but not published, or taken back. */
  predicate Private(c: Control, q: Address) {
    (c.StoreQueue? && c.q == q) || (c.Delete? && c.owned == q)
  }

  ghost predicate HeldInv(s: State) {
    && (forall p, q | Holds(s.pushers, p, q) :: q != 0 && q in s.live && q != s.msgQueue
                                        && q !in s.lost && !Private(s.control, q))
    && (forall p, p', q | Holds(s.pushers, p, q) && Holds(s.pushers, p', q) :: p == p')
    && (forall p | p in s.pushers && s.pushers[p].Loaded? :: s.pushers[p].q != 0)
  }

  ghost predicate PlaceInv(s: State) {
    && (s.msgQueue != 0 ==> s.msgQueue in s.live && s.msgQueue !in s.lost && !Private(s.control, s.msgQueue))
    && s.lost <= s.live && 0 !in s.lost && 0 !in s.live
    && (s.control.StoreQueue? ==> s.control.q != 0 && s.control.q in s.live && s.control.q !in s.lost)
    && (s.control.Delete? ==> s.control.owned !in s.lost && (s.control.owned != 0 ==> s.control.owned in s.live))
    && (forall q | q in s.live && q !in s.lost && q != s.msgQueue && !Private(s.control, q)
          :: exists p :: Holds(s.pushers, p, q))
  }

  ghost predicate ThreadInv(s: State) {
    && (s.control.StoreConsumer? || s.control.ClearShutdown? || s.control.Launch?
        ==> s.control.q in s.live)
    && (s.control.ClearShutdown? || s.control.Launch? ==> s.consumer == s.control.q)
    && (!s.control.Idle? && !s.control.JoinThread? ==> s.thread.Off?)
    && (!s.thread.Off? ==> s.consumer in s.live)
    && (s.thread.Dequeue? ==> s.thread.q == s.consumer)
  }

  /** The thread is told to end by stop() alone, and the consumer pointer is null between stop()
      and start(). */
  ghost predicate ShutdownInv(s: State) {
    && (s.control.Launch? || (s.control.Idle? && !s.thread.Off?) ==> !s.shutdown)
    && (s.thread.Ended? ==> s.control.JoinThread?)
    && (s.control.JoinThread? ==> s.shutdown && !s.thread.Off?)
    && (s.thread.Off? && (s.control.Idle? || s.control.StoreQueue? || s.control.StoreConsumer?) ==> s.consumer == 0)
    && (s.control.LoadQueue? || s.control.Take? || s.control.Delete? ==> s.consumer in s.live)
  }

  ghost predicate Inv(s: State) {
    HeldInv(s) && PlaceInv(s) && ThreadInv(s) && ShutdownInv(s)
  }

  /** Who holds what after pusher p moved on. */
  lemma HoldsAfter(ps: map<nat, Pusher>, p: nat, x: Pusher)
    ensures forall p', q {:trigger Holds(ps[p := x], p', q)} {:trigger Holds(ps, p', q)} ::
              Holds(ps[p := x], p', q) <==>
              if p' == p then !x.Loaded? && x.q == q else Holds(ps, p', q)
  {
  }

  lemma HoldsWithout(ps: map<nat, Pusher>, p: nat)
    ensures forall p', q {:trigger Holds(ps - {p}, p', q)} {:trigger Holds(ps, p', q)} ::
              Holds(ps - {p}, p', q) <==> p' != p && Holds(ps, p', q)
  {
  }

  lemma PushCasInv(s: State, p: nat)
    requires Inv(s) && p in s.pushers && s.pushers[p].Loaded?
    ensures Inv(PushDo(s, p))
  {
    var q := s.pushers[p].q;
    HoldsAfter(s.pushers, p, Holding(q));
    HoldsWithout(s.pushers, p);
    if s.msgQueue == q {
      assert Holds(s.pushers[p := Holding(q)], p, q);
    }
  }

  lemma PushEnqueueInv(s: State, p: nat)
    requires Inv(s) && p in s.pushers && s.pushers[p].Holding?
    ensures Inv(PushDo(s, p))
  {
    HoldsAfter(s.pushers, p, Enqueued(s.pushers[p].q));
    assert Holds(s.pushers, p, s.pushers[p].q);
  }

  lemma PushReturnInv(s: State, p: nat)
    requires Inv(s) && p in s.pushers && s.pushers[p].Enqueued?
    ensures Inv(PushDo(s, p))
  {
    HoldsWithout(s.pushers, p);
    assert Holds(s.pushers, p, s.pushers[p].q);
  }

  lemma StartStepInv(s: State, spurious: bool)
    requires Inv(s) && (s.control.StoreQueue? || s.control.StoreConsumer? || s.control.ClearShutdown? || s.control.Launch?)
    ensures Inv(ControlDo(s, spurious))
  {
    match s.control
    case StoreQueue(q) =>
    case StoreConsumer(q) =>
    case ClearShutdown(q) =>
    case Launch(_) =>
  }

  lemma StopStepInv(s: State, spurious: bool)
    requires Inv(s) && (s.control.LoadQueue? || s.control.Take? || s.control.Delete? || s.control.ClearConsumer?)
    ensures Inv(ControlDo(s, spurious))
  {
    match s.control
    case LoadQueue =>
    case Take(owned) =>
    case Delete(owned) =>
    case ClearConsumer =>
  }

  lemma ControlInv(s: State, spurious: bool)
    requires Inv(s) && Enabled(s, ControlStep(spurious))
    ensures Inv(ControlDo(s, spurious))
  {
    if s.control.StoreQueue? || s.control.StoreConsumer? || s.control.ClearShutdown? || s.control.Launch? {
      StartStepInv(s, spurious);
    } else if !s.control.JoinThread? {
      StopStepInv(s, spurious);
    }
  }

  lemma InvStep(s: State, step: Step)
    requires Inv(s) && Enabled(s, step)
    ensures Inv(Do(s, step))
  {
    match step
    case Push(p) => HoldsAfter(s.pushers, p, Loaded(s.msgQueue));
    case PushStep(p) =>
      if s.pushers[p].Loaded? {
        PushCasInv(s, p);
      } else if s.pushers[p].Holding? {
        PushEnqueueInv(s, p);
      } else {
        PushReturnInv(s, p);
      }
    case Start(q) =>
    case Stop =>
    case ControlStep(spurious) => ControlInv(s, spurious);
    case ThreadStep(_) =>
  }

  lemma InitInv(s: State)
    requires Init(s)
    ensures Inv(s)
  {
  }

  // ----- Runs -----

  ghost predicate Run(s: State, steps: seq<Step>, s': State)
    decreases |steps|
  {
    if steps == [] then s' == s
    else Enabled(s, steps[0]) && Run(Do(s, steps[0]), steps[1..], s')
  }

  lemma {:induction false} InvRun(s: State, steps: seq<Step>, s': State)
    requires Inv(s) && Run(s, steps, s')
    ensures Inv(s')
    decreases |steps|
  {
    if steps != [] {
      InvStep(s, steps[0]);
      InvRun(Do(s, steps[0]), steps[1..], s');
    }
  }

  /** Every queue has one producer at a time: in every reachable state a held queue is live,
      held by that pusher alone, and not to be had from msg_queue. */
  lemma OneProducerPerQueue(s: State, steps: seq<Step>, s': State, p: nat, q: Address)
    requires Init(s) && Run(s, steps, s') && Holds(s'.pushers, p, q)
    ensures q in s'.live && q != s'.msgQueue
    ensures forall p' :: Holds(s'.pushers, p', q) ==> p' == p
  {
    InitInv(s);
    InvRun(s, steps, s');
  }

  /** The consumer thread only ever dequeues from the live queue start() gave it. */
  lemma ConsumerQueueIsLive(s: State, steps: seq<Step>, s': State)
    requires Init(s) && Run(s, steps, s') && s'.thread.Dequeue?
    ensures s'.thread.q in s'.live && s'.thread.q == s'.consumer
  {
    InitInv(s);
    InvRun(s, steps, s');
  }

  /** From start() to the next stop() the consumer thread is not told to end, and it ends only when
      stop() is waiting for it. */
  lemma ThreadRunsUntilStop(s: State, steps: seq<Step>, s': State)
    requires Init(s) && Run(s, steps, s')
    ensures s'.control.Launch? ==> !s'.shutdown
    ensures !s'.thread.Off? && !s'.control.JoinThread? ==> !s'.shutdown && !s'.thread.Ended?
  {
    InitInv(s);
    InvRun(s, steps, s');
  }

  /** The consumer pointer is null or names a live queue, but for the moment between stop()'s delete
      and its store of null; with no thread and no call under way it is null. */
  lemma ConsumerPointerIsSound(s: State, steps: seq<Step>, s': State)
    requires Init(s) && Run(s, steps, s')
    ensures s'.consumer == 0 || s'.consumer in s'.live || s'.control.ClearConsumer?
    ensures s'.thread.Off? && s'.control.Idle? ==> s'.consumer == 0
  {
    InitInv(s);
    InvRun(s, steps, s');
  }

  // ----- stop() gets its thread -----

  function ThreadRank(t: Thread): nat {
    match t
    case Off => 0
    case Ended => 0
    case Check => 1
    case Sleep => 2
    case Dequeue(_) => 3
    case LoadConsumer => 4
  }

  function ThreadMoves(steps: seq<Step>): nat {
    if steps == [] then 0 else (if steps[0].ThreadStep? then 1 else 0) + ThreadMoves(steps[1..])
  }

  /** How many moves of the thread find what they look for: at most that many messages. */
  function Takes(steps: seq<Step>): nat {
    if steps == [] then 0 else (if steps[0] == ThreadStep(true) then 1 else 0) + Takes(steps[1..])
  }

  predicate NoControl(steps: seq<Step>) {
    forall k | 0 <= k < |steps| :: !steps[k].ControlStep?
  }

  lemma ThreadUsesRank(s: State, step: Step)
    requires Inv(s) && Enabled(s, step) && s.control.JoinThread? && !step.ControlStep?
    ensures Do(s, step).control.JoinThread?
    ensures ThreadRank(Do(s, step).thread) + (if step.ThreadStep? then 1 else 0)
            <= ThreadRank(s.thread) + (if step == ThreadStep(true) then 2 else 0)
  {
    match step
    case Push(p) =>
    case PushStep(p) =>
    case ThreadStep(_) =>
    case _ =>
  }

  /** Once stop() waits for it the consumer thread ends: after at most ThreadRank moves and two for
      each message taken; until then it can move, and then stop() can go on. */
  lemma {:induction false} StopGetsTheThread(s: State, steps: seq<Step>, s': State)
    requires Inv(s) && s.control.JoinThread? && Run(s, steps, s') && NoControl(steps)
    ensures ThreadMoves(steps) + ThreadRank(s'.thread) <= ThreadRank(s.thread) + 2 * Takes(steps)
    ensures if ThreadRank(s'.thread) == 0 then Enabled(s', ControlStep(false)) else Enabled(s', ThreadStep(false))
    decreases |steps|
  {
    if steps != [] {
      InvStep(s, steps[0]);
      ThreadUsesRank(s, steps[0]);
      StopGetsTheThread(Do(s, steps[0]), steps[1..], s');
    }
  }

  // ----- The consumer thread works -----

  function PollRank(t: Thread): nat {
    match t
    case Sleep => 3
    case Check => 2
    case LoadConsumer => 1
    case _ => 0
  }

  ghost predicate EverDequeues(s: State, steps: seq<Step>, s': State)
    requires Run(s, steps, s')
    decreases |steps|
  {
    steps != [] && ((s.thread.Dequeue? && steps[0].ThreadStep?) || EverDequeues(Do(s, steps[0]), steps[1..], s'))
  }

  lemma ThreadComesToDequeue(s: State, step: Step)
    requires Inv(s) && Enabled(s, step) && s.control.Idle? && !s.thread.Off? && step != Stop
    requires !(s.thread.Dequeue? && step.ThreadStep?)
    ensures Do(s, step).control.Idle? && !Do(s, step).thread.Off?
    ensures PollRank(Do(s, step).thread) + (if step.ThreadStep? then 1 else 0) <= PollRank(s.thread)
  {
    match step
    case Push(p) =>
    case PushStep(p) =>
    case ThreadStep(_) =>
    case _ =>
  }

  /** While nobody calls stop() the thread comes round to dequeuing from the queue start() gave it
      within four of its own moves, in any run. */
  lemma {:induction false} ThreadKeepsPolling(s: State, steps: seq<Step>, s': State)
    requires Inv(s) && s.control.Idle? && !s.thread.Off? && Run(s, steps, s') && Stop !in steps
    ensures EverDequeues(s, steps, s') || ThreadMoves(steps) + PollRank(s'.thread) <= PollRank(s.thread) <= 3
    decreases |steps|
  {
    if steps != [] && !(s.thread.Dequeue? && steps[0].ThreadStep?) {
      InvStep(s, steps[0]);
      ThreadComesToDequeue(s, steps[0]);
      ThreadKeepsPolling(Do(s, steps[0]), steps[1..], s');
    }
  }

  ghost predicate EverFindsNone(s: State, steps: seq<Step>, s': State)
    requires Run(s, steps, s')
    decreases |steps|
  {
    steps != []
    && ((s.thread.Dequeue? && steps[0] == ThreadStep(false)) || EverFindsNone(Do(s, steps[0]), steps[1..], s'))
  }

  predicate Dequeuing(t: Thread) {
    t.LoadConsumer? || t.Dequeue?
  }

  lemma DequeuingGoesOn(s: State, step: Step)
    requires Inv(s) && Enabled(s, step) && Dequeuing(s.thread) && !(s.thread.Dequeue? && step == ThreadStep(false))
    ensures Dequeuing(Do(s, step).thread)
  {
    match step
    case Push(p) =>
    case PushStep(p) =>
    case ThreadStep(_) =>
    case _ =>
  }

  /** The thread empties its queue before it ends: between any dequeue and the end, one has found
      nothing there. */
  lemma {:induction false} EmptiesBeforeEnd(s: State, steps: seq<Step>, s': State)
    requires Inv(s) && Dequeuing(s.thread) && Run(s, steps, s') && s'.thread.Ended?
    ensures EverFindsNone(s, steps, s')
    decreases |steps|
  {
    if !(s.thread.Dequeue? && steps[0] == ThreadStep(false)) {
      InvStep(s, steps[0]);
      DequeuingGoesOn(s, steps[0]);
      EmptiesBeforeEnd(Do(s, steps[0]), steps[1..], s');
    }
  }

  /** A push that meets no other and no stop() enqueues on the queue of msg_queue, and gives it back:
      everything is as before. */
  lemma LonePushGivesBack(s: State, steps: seq<Step>, s': State, p: nat) returns (t: State)
    requires Init(s) && Run(s, steps, s') && p !in s'.pushers && s'.msgQueue != 0
    ensures Run(s', [Push(p), PushStep(p), PushStep(p)], t) && t.msgQueue == 0
    ensures t.pushers == s'.pushers[p := Enqueued(s'.msgQueue)] && Enabled(t, PushStep(p)) && Do(t, PushStep(p)) == s'
  {
    var s1 := Do(s', Push(p));
    var s2 := Do(s1, PushStep(p));
    t := Do(s2, PushStep(p));
    assert Run(s2, [PushStep(p)], t);
    assert Run(s1, [PushStep(p), PushStep(p)], t);
    assert Do(t, PushStep(p)).pushers == s'.pushers;
  }

  /** A queue is deleted only while no pusher holds it, nobody can take it any more, and the
      consumer thread has been joined. */
  lemma DeleteIsSafe(s: State, steps: seq<Step>, s': State, q: Address)
    requires Init(s) && Run(s, steps, s')
    requires s'.control == Delete(q) && q != 0
    ensures q in s'.live && s'.thread.Off? && q != s'.msgQueue
    ensures forall p :: !Holds(s'.pushers, p, q)
  {
    InitInv(s);
    InvRun(s, steps, s');
  }

  /** The successful compare-exchange of stop() gets null, and nothing is freed, exactly if every
      live queue is held by a pusher in the middle of a push, or leaked before; otherwise it gets
      a live queue that nobody holds. */
  lemma StopFreesIff(s: State, steps: seq<Step>, s': State)
    requires Init(s) && Run(s, steps, s')
    requires s'.control.Take? && s'.control.owned == s'.msgQueue
    ensures var t := ControlDo(s', false);
            && t.control.Delete?
            && (t.control.owned == 0 <==> forall q | q in s'.live :: q in s'.lost || exists p :: Holds(s'.pushers, p, q))
            && (t.control.owned != 0 ==>
                  t.control.owned in s'.live && t.control.owned !in s'.lost
                  && forall p :: !Holds(s'.pushers, p, t.control.owned))
  {
    InitInv(s);
    InvRun(s, steps, s');
  }

  // ----- Leaks -----

  /** Nothing names a leaked queue that could give it back: not msg_queue, not a pusher that holds
      it, and not a stop() that is about to delete. */
  lemma LostIsOutOfReach(s: State, steps: seq<Step>, s': State, q: Address)
    requires Init(s) && Run(s, steps, s') && q in s'.lost
    ensures q in s'.live && q != s'.msgQueue && !Private(s'.control, q)
    ensures forall p :: !Holds(s'.pushers, p, q)
  {
    InitInv(s);
    InvRun(s, steps, s');
  }

  /** With no push under way and none of start() and stop() between allocating and publishing, or
      taking and deleting, the leaked queues are exactly the live ones other than msg_queue's. */
  lemma LeaksAreTheOthers(s: State, steps: seq<Step>, s': State)
    requires Init(s) && Run(s, steps, s')
    requires forall p, q :: !Holds(s'.pushers, p, q)
    requires !s'.control.StoreQueue? && !s'.control.Delete?
    ensures s'.lost == s'.live - {s'.msgQueue}
  {
    InitInv(s);
    InvRun(s, steps, s');
  }

  /** A run in which every start() finds no queue alive but leaked ones: the stop() before it
      freed one. */
  ghost predicate CleanRun(s: State, steps: seq<Step>, s': State)
    decreases |steps|
  {
    if steps == [] then s' == s
    else Enabled(s, steps[0]) && (steps[0].Start? ==> s.live <= s.lost) && CleanRun(Do(s, steps[0]), steps[1..], s')
  }

  /** At most one queue is alive besides the leaked ones, which are those in `leaked`. */
  ghost predicate OneQueue(s: State, leaked: set<Address>) {
    && s.lost == leaked
    && (forall q, r | q in s.live && r in s.live && q !in leaked && r !in leaked :: q == r)
    && (s.control.StoreQueue? ==> s.msgQueue == 0)
  }

  lemma OneQueueStep(s: State, step: Step, leaked: set<Address>)
    requires Inv(s) && OneQueue(s, leaked) && Enabled(s, step) && (step.Start? ==> s.live <= leaked)
    ensures OneQueue(Do(s, step), leaked)
  {
    match step
    case Push(p) =>
    case PushStep(p) =>
      if s.pushers[p].Enqueued? {
        assert Holds(s.pushers, p, s.pushers[p].q);
      }
    case Start(q) =>
    case Stop =>
    case ControlStep(_) =>
    case ThreadStep(_) =>
  }

  lemma {:induction false} CleanInv(s: State, steps: seq<Step>, s': State, leaked: set<Address>)
    requires Inv(s) && OneQueue(s, leaked) && CleanRun(s, steps, s')
    ensures Run(s, steps, s') && OneQueue(s', leaked)
    decreases |steps|
  {
    if steps != [] {
      InvStep(s, steps[0]);
      OneQueueStep(s, steps[0], leaked);
      CleanInv(Do(s, steps[0]), steps[1..], s', leaked);
    }
  }

  /** Where every start() finds no queue alive nothing ever leaks, and there is at most one queue
      at any time. */
  lemma CleanStartsNeverLeak(s: State, steps: seq<Step>, s': State)
    requires Init(s) && CleanRun(s, steps, s')
    ensures s'.lost == {} && forall q, r | q in s'.live && r in s'.live :: q == r
  {
    InitInv(s);
    CleanInv(s, steps, s', {});
  }

  /** One more step at the end of a run. */
  lemma {:induction false} Then(s: State, steps: seq<Step>, s1: State, step: Step)
    returns (steps': seq<Step>, s2: State)
    requires Run(s, steps, s1) && Enabled(s1, step)
    ensures Run(s, steps', s2) && s2 == Do(s1, step) && steps' == steps + [step]
    decreases |steps|
  {
    s2 := Do(s1, step);
    steps' := steps + [step];
    if steps != [] {
      var tail, _ := Then(Do(s, steps[0]), steps[1..], s1, step);
      assert steps'[1..] == tail;
    }
  }

  predicate NoStart(steps: seq<Step>) {
    forall k | 0 <= k < |steps| :: !steps[k].Start?
  }

  /** A run that begins with start() and has no other start(). */
  ghost predicate LoneStart(s: State, q: Address, rest: seq<Step>, t: State) {
    Enabled(s, Start(q)) && NoStart(rest) && Run(Do(s, Start(q)), rest, t)
  }

  /** If a queue that has not leaked is alive, start() can lead to one more leak, whatever new
      address it gets. */
  lemma UncleanStartCanLeak(s: State, steps: seq<Step>, s': State, r: Address, q: Address)
    returns (rest: seq<Step>, t: State)
    requires Init(s) && Run(s, steps, s') && r in s'.live && r !in s'.lost && Enabled(s', Start(q))
    ensures LoneStart(s', q, rest, t) && s'.lost < t.lost
  {
    InitInv(s);
    InvRun(s, steps, s');
    var s1 := Do(s', Start(q));
    rest, t := Then(s1, [], s1, ControlStep(false));
    if s'.msgQueue == 0 {
      assert r != s'.msgQueue && !Private(s'.control, r);
      var p :| Holds(s'.pushers, p, r);
      rest, t := GiveBack(s1, rest, t, p, r);
      assert q in t.lost && q !in s'.lost;
    } else {
      assert s'.msgQueue in t.lost && s'.msgQueue !in s'.lost;
    }
  }

  /** Pusher p, who holds r, gives it back while msg_queue has another queue. */
  lemma GiveBack(s: State, steps: seq<Step>, s1: State, p: nat, r: Address) returns (steps': seq<Step>, t: State)
    requires Run(s, steps, s1) && Holds(s1.pushers, p, r) && s1.msgQueue != 0 && NoStart(steps)
    ensures Run(s, steps', t) && t.lost == s1.lost + {s1.msgQueue} && NoStart(steps')
  {
    steps', t := steps, s1;
    if t.pushers[p].Holding? {
      steps', t := Then(s, steps', t, PushStep(p));
    }
    assert t.msgQueue == s1.msgQueue && t.pushers[p] == Enqueued(r) && NoStart(steps');
    steps', t := Then(s, steps', t, PushStep(p));
  }

  lemma {:induction false} NoStartIsClean(s: State, steps: seq<Step>, s': State)
    requires Run(s, steps, s') && NoStart(steps)
    ensures CleanRun(s, steps, s')
    decreases |steps|
  {
    if steps != [] {
      NoStartIsClean(Do(s, steps[0]), steps[1..], s');
    }
  }

  /** If all live queues have leaked, no run with that start() alone leaks another one. */
  lemma CleanStartNeverLeaks(s: State, steps: seq<Step>, s': State, q: Address, rest: seq<Step>, t: State)
    requires Init(s) && Run(s, steps, s') && s'.live <= s'.lost && LoneStart(s', q, rest, t)
    ensures t.lost == s'.lost
  {
    InitInv(s);
    InvRun(s, steps, s');
    var s1 := Do(s', Start(q));
    InvStep(s', Start(q));
    NoStartIsClean(s1, rest, t);
    CleanInv(s1, rest, t, s'.lost);
  }

  /** In every reachable state, start() can lead to one more leak if and only if a queue that has
      not leaked is alive. */
  lemma StartCanLeakIff(s: State, steps: seq<Step>, s': State, q: Address)
    requires Init(s) && Run(s, steps, s') && Enabled(s', Start(q))
    ensures (exists rest, t :: LoneStart(s', q, rest, t) && s'.lost < t.lost)
            <==> exists r :: r in s'.live && r !in s'.lost
  {
    if r :| r in s'.live && r !in s'.lost {
      var rest, t := UncleanStartCanLeak(s, steps, s', r, q);
    } else {
      forall rest, t | LoneStart(s', q, rest, t)
        ensures t.lost == s'.lost
      {
        CleanStartNeverLeaks(s, steps, s', q, rest, t);
      }
    }
  }

  /** start() carried through, with the queue at address q. */
  lemma StartedWith(s: State, steps: seq<Step>, s1: State, q: Address) returns (steps': seq<Step>, t: State)
    requires Run(s, steps, s1) && Enabled(s1, Start(q))
    ensures Run(s, steps', t) && t.msgQueue == q == t.consumer && t.control.Idle? && t.thread.Check? && !t.shutdown
    ensures t.live == s1.live + {q} && t.pushers == s1.pushers
    ensures t.lost == s1.lost + (if s1.msgQueue != 0 then {s1.msgQueue} else {})
  {
    var c := ControlStep(false);
    steps', t := Then(s, steps, s1, Start(q));
    steps', t := Then(s, steps', t, c);
    steps', t := Then(s, steps', t, c);
    steps', t := Then(s, steps', t, c);
    steps', t := Then(s, steps', t, c);
  }

  /** An undisturbed stop(), from whatever value its loop holds, takes the queue of msg_queue, frees
      it, and leaves both pointers null. */
  lemma StopFinishes(s: State, steps: seq<Step>, s': State) returns (steps': seq<Step>, t: State)
    requires Run(s, steps, s') && s'.control.Take?
    ensures Run(s, steps', t) && steps < steps'
    ensures forall k | |steps| <= k < |steps'| :: steps'[k] == ControlStep(false)
    ensures t == s'.(msgQueue := 0, live := s'.live - {s'.msgQueue}, consumer := 0, control := Idle)
  {
    steps', t := steps, s';
    if s'.control.owned != s'.msgQueue {
      steps', t := Then(s, steps', t, ControlStep(false));
    }
    steps', t := Then(s, steps', t, ControlStep(false));
    steps', t := Then(s, steps', t, ControlStep(false));
    steps', t := Then(s, steps', t, ControlStep(false));
  }

  /** A run through start() and stop() with one push under way when stop() succeeds on null. */
  lemma StopDuringPush(s: State) returns (steps: seq<Step>, t: State)
    requires Init(s)
    ensures Run(s, steps, t) && t.pushers == map[7 := Holding(1)] && t.live == {1}
    ensures t.msgQueue == 0 && t.control.Idle? && t.thread.Off? && t.lost == {}
  {
    steps, t := StartedWith(s, [], s, 1);
    steps, t := Then(s, steps, t, Push(7));
    steps, t := Then(s, steps, t, PushStep(7));
    steps, t := Then(s, steps, t, Stop);
    steps, t := Then(s, steps, t, ThreadStep(false));
    steps, t := StoppedOnNull(s, steps, t);
  }

  /** stop() carried through from the join on, while msg_queue is null. */
  lemma StoppedOnNull(s: State, steps: seq<Step>, s1: State) returns (steps': seq<Step>, t: State)
    requires Run(s, steps, s1) && s1.msgQueue == 0 && s1.control.JoinThread? && s1.thread.Ended? && 0 !in s1.live
    ensures Run(s, steps', t) && t.msgQueue == 0 && t.control.Idle? && t.thread.Off?
    ensures t.pushers == s1.pushers && t.lost == s1.lost && t.live == s1.live
  {
    var c := ControlStep(false);
    steps', t := Then(s, steps, s1, c);
    steps', t := Then(s, steps', t, c);
    steps', t := Then(s, steps', t, c);
    steps', t := Then(s, steps', t, c);
    steps', t := Then(s, steps', t, c);
  }

  /** Not every queue is freed: a push under way across stop() and the next start() leaves a
      live queue that no pointer names any more. */
  lemma StopCanLeak(s: State) returns (steps: seq<Step>, t: State, q: Address)
    requires Init(s)
    ensures Run(s, steps, t)
    ensures q in t.live && q != t.msgQueue && q != t.consumer && t.control.Idle? && t.pushers == map[]
    ensures t.thread.Check?
  {
    q := 1;
    steps, t := StopDuringPush(s);
    steps, t := Then(s, steps, t, PushStep(7));
    steps, t := Then(s, steps, t, PushStep(7));
    assert t.msgQueue == 1;
    steps, t := StartedWith(s, steps, t, 2);
  }
}
