/** The state of one AAudio stream under concurrency. User calls, the state thread's
    update_state and a reinit thread run under the stream's mutex; the data and error
    callbacks store into the atomic state without it. One step is one atomic access, one lock
    or unlock, or one group of calls into AAudio with an arbitrary outcome. Of AAudio it is
    assumed that callbacks run only on an open stream and that closing it waits for them.
    A failed assertion stops nothing here, as in a build without assertions. */
module StreamControl {
  import opened StreamStates

  /** start_locked and stop_locked are called by the user or from inside a reinit. */
  datatype Caller = ByUser | ByReinit(wasPlaying: bool)

  datatype CasPc =
    | Read                // loads the state
    | Request             // talks to AAudio
    | Cas                 // compare-exchange loop
    | Broken              // the assert(false) of the default branch

  datatype UpdatePc =
    | UpdRead             // second load, under the lock
    | Inspect             // top of the loop: asks AAudio, may fire a state callback
    | UpdCas              // loop condition: compare-exchange
    | ShutStore           // error callback fired; about to store SHUTDOWN
    | UpdBroken           // the assert(false) of the default branch

  /** Who calls destroy_locked: a reinit at first, a reinit whose opening or start has failed, or
      the user, for good. */
  datatype Destroyer = InReinit | AfterFailure | ByDestroy

  /** destroy_locked first asserts on the state with one load a comparison; `loads` are the values
      loaded. */
  datatype ReinitPc =
    | ReadState
    | Asserting(d: Destroyer, loads: seq<StreamState>)
    | Closing(d: Destroyer, loads: seq<StreamState>, failed: bool)   // closes, then stores INIT
    | Initialise          // opens the streams
    | StoreStopped
    | StoreError

  /** What the holder of the mutex is doing. A user's destroy is the part of `Reinit` that
      destroys; after it the stream is gone. */
  datatype Job =
    | Start(c: Caller, pc: CasPc, expected: StreamState)
    | Stop(c: Caller, pc: CasPc, expected: StreamState)
    | Update(upc: UpdatePc, seen: StreamState, next: StreamState)
    | Reinit(rpc: ReinitPc, wasPlaying: bool)
    | Free
    | Gone

  /** The state callbacks, and what update_state and all others do with the state. */
  datatype Log = Log(
    armed: set<StreamState>,         // entered, and no state callback for it since
    entries: multiset<StreamState>,  // stores of STARTING, STOPPING and DRAINING
    fired: multiset<StreamState>,    // the state callbacks that answer them
    left: multiset<StreamState>,     // compare-exchanges out of them by update_state
    errors: nat,                     // error callbacks to the user
    shutDowns: nat                   // stores of SHUTDOWN
  )

  datatype State = State(
    st: StreamState,
    job: Job,
    isOpen: bool,
    dataCallback: bool,              // past its check for DRAINING
    timing: bool,                    // the position estimate is in Play or Resume
    drained: bool,                   // and a callback stored DRAINING since it got there
    log: Log
  )

  datatype Step =
    | LockStart
    | LockStop
    | LockUpdate
    | LockReinit
    | LockDestroy
    | JobStep(ok: bool, reached: bool)
    | DataCallback
    | DataStore(st: StreamState)
    | DataDone
    | ErrorCallback

  predicate Awaited(st: StreamState) {
    st.STARTING? || st.STOPPING? || st.DRAINING?
  }

  /** As aaudio_stream_init_impl leaves a stream. */
  ghost predicate Init(s: State) {
    && s.st == STOPPED && s.job == Free && s.isOpen && !s.dataCallback && !s.timing && !s.drained
    && s.log == Log({}, multiset{}, multiset{}, multiset{}, 0, 0)
  }

  predicate Enabled(s: State, step: Step) {
    match step
    case LockStart => s.job.Free?
    case LockStop => s.job.Free?
    case LockUpdate => s.job.Free?
    case LockReinit => s.job.Free?
    case LockDestroy => s.job.Free?
    case JobStep(_, _) => !s.job.Free? && !s.job.Gone? && (s.job.Reinit? && s.job.rpc.Closing? ==> !s.dataCallback)
    case DataCallback => s.isOpen && !s.dataCallback
    case DataStore(st) => s.dataCallback && (st.ERROR? || st.DRAINING?)
    case DataDone => s.dataCallback
    case ErrorCallback => s.isOpen
  }

  /** Stores of awaited states are counted as entries. */
  function Entered(l: Log, st: StreamState): Log {
    if Awaited(st) then l.(armed := l.armed + {st}, entries := l.entries + multiset{st}) else l
  }

  /** The state callback that answers state x. */
  function Answered(l: Log, x: StreamState): Log {
    l.(armed := l.armed - {x}, fired := l.fired + multiset{x})
  }

  function Left(l: Log, x: StreamState): Log {
    l.(left := l.left + multiset{x})
  }

  /** Where the holder of the mutex stands after start_locked, or stop_locked, has returned. */
  function AfterStart(c: Caller, ok: bool): Job {
    if c.ByReinit? && !ok then Reinit(Asserting(AfterFailure, []), c.wasPlaying) else Free
  }

  function AfterStop(c: Caller): Job {
    if c.ByReinit? then Reinit(Asserting(InReinit, []), c.wasPlaying) else Free
  }

  function StartDo(s: State, c: Caller, pc: CasPc, expected: StreamState, ok: bool): State {
    match pc
    case Read =>
      s.(job := if s.st.STARTED? || s.st.STARTING? then AfterStart(c, true)
                else if s.st.ERROR? || s.st.SHUTDOWN? then AfterStart(c, false)
                else Start(c, if s.st.INIT? then Broken else Request, s.st))
    case Request =>
      if ok then s.(job := Start(c, Cas, expected))
      else s.(st := ERROR, job := AfterStart(c, false))
    case Cas =>
      if s.st == expected then
        s.(st := STARTING, log := Entered(s.log, STARTING), timing := true, drained := false,
           job := AfterStart(c, true))
      else
        s.(job := if s.st.ERROR? || s.st.DRAINING? then AfterStart(c, s.st.DRAINING?)
                  else Start(c, if s.st.STOPPING? || s.st.STOPPED? then Cas else Broken, s.st))
    case Broken => s
  }

  function StopDo(s: State, c: Caller, pc: CasPc, expected: StreamState, ok: bool): State {
    match pc
    case Read =>
      s.(job := if s.st.STARTED? || s.st.STARTING? then Stop(c, Request, s.st)
                else if s.st.INIT? then Stop(c, Broken, s.st)
                else AfterStop(c))
    case Request =>
      if ok then s.(job := Stop(c, Cas, expected)) else s.(st := ERROR, job := AfterStop(c))
    case Cas =>
      if s.st == expected then
        s.(st := STOPPING, log := Entered(s.log, STOPPING), timing := false, drained := false,
           job := AfterStop(c))
      else
        s.(job := if s.st.ERROR? || s.st.DRAINING? || s.st.STOPPING? || s.st.STOPPED? then AfterStop(c)
                  else Stop(c, if s.st.STARTED? then Cas else Broken, s.st))
    case Broken => s
  }

  /** The state that follows an awaited one once AAudio has got there. */
  function Answer(seen: StreamState): StreamState {
    if seen.STARTING? then STARTED else STOPPED
  }

  /** `ok`: AAudio reports two valid states. `reached`: they are the awaited ones, or, for
      shutdown_with_error, both streams are at rest. */
  function InspectDo(s: State, seen: StreamState, ok: bool, reached: bool): State {
    if seen.SHUTDOWN? then s.(job := Free)
    else if seen.ERROR? || !ok then
      if reached then s.(log := s.log.(errors := s.log.errors + 1), job := Update(ShutStore, ERROR, SHUTDOWN))
      else s.(job := Free)
    else if !Awaited(seen) then s.(job := Update(UpdBroken, seen, seen))
    else if reached then s.(log := Answered(s.log, seen), job := Update(UpdCas, seen, Answer(seen)))
    else s.(job := Free)
  }

  function UpdateDo(s: State, upc: UpdatePc, seen: StreamState, next: StreamState, ok: bool, reached: bool): State {
    match upc
    case UpdRead => s.(job := if Settled(s.st) then Free else Update(Inspect, s.st, s.st))
    case Inspect => InspectDo(s, seen, ok, reached)
    case UpdCas =>
      if s.st == seen then s.(st := next, log := Left(Entered(s.log, next), seen), job := Free)
      else s.(job := Update(Inspect, s.st, s.st))
    case ShutStore => s.(st := SHUTDOWN, log := s.log.(shutDowns := s.log.shutDowns + 1), job := Free)
    case UpdBroken => s
  }

  /** The states destroy_locked compares with, in order. */
  function Expected(k: nat): StreamState {
    if k == 0 then STOPPED
    else if k == 1 then STOPPING
    else if k == 2 then INIT
    else if k == 3 then DRAINING
    else if k == 4 then ERROR
    else SHUTDOWN
  }

  /** One load of the assertion: the first match ends it, the sixth miss fails it. */
  function AfterLoad(d: Destroyer, loads: seq<StreamState>, st: StreamState): ReinitPc {
    if st == Expected(|loads|) then Closing(d, loads + [st], false)
    else if |loads| < 5 then Asserting(d, loads + [st])
    else Closing(d, loads + [st], true)
  }

  function AfterClose(d: Destroyer, w: bool): Job {
    match d
    case InReinit => Reinit(Initialise, w)
    case AfterFailure => Reinit(StoreError, w)
    case ByDestroy => Gone
  }

  function ReinitDo(s: State, rpc: ReinitPc, w: bool, ok: bool, leftOpen: bool): State {
    match rpc
    case ReadState =>
      s.(job := Stop(ByReinit(s.st.STARTED? || s.st.STARTING? || s.st.DRAINING?), Read, INIT))
    case Asserting(d, loads) => s.(job := Reinit(AfterLoad(d, loads, s.st), w))
    case Closing(d, _, _) =>
      s.(st := INIT, isOpen := false, timing := false, drained := false, job := AfterClose(d, w))
    case Initialise =>
      s.(isOpen := ok || leftOpen, job := Reinit(if ok then StoreStopped else Asserting(AfterFailure, []), w))
    case StoreStopped =>
      s.(st := STOPPED, job := if w then Start(ByReinit(w), Read, INIT) else Free)
    case StoreError => s.(st := ERROR, job := Free)
  }

  function JobDo(s: State, ok: bool, reached: bool): State {
    match s.job
    case Start(c, pc, expected) => StartDo(s, c, pc, expected, ok)
    case Stop(c, pc, expected) => StopDo(s, c, pc, expected, ok)
    case Update(upc, seen, next) => UpdateDo(s, upc, seen, next, ok, reached)
    case Reinit(rpc, w) => ReinitDo(s, rpc, w, ok, reached)
    case Free => s
    case Gone => s
  }

  function Do(s: State, step: Step): State
    requires Enabled(s, step)
  {
    match step
    case LockStart => s.(job := Start(ByUser, Read, INIT))
    case LockStop => s.(job := Stop(ByUser, Read, INIT))
    case LockUpdate => s.(job := Update(UpdRead, INIT, INIT))
    case LockReinit => s.(job := Reinit(ReadState, false))
    case LockDestroy => s.(job := Reinit(Asserting(ByDestroy, []), false))
    case JobStep(ok, reached) => JobDo(s, ok, reached)
    case DataCallback => s.(dataCallback := !s.st.DRAINING?)
    case DataStore(st) =>
      s.(st := st, log := Entered(s.log, st), dataCallback := false,
         drained := s.drained || (st.DRAINING? && s.timing))
    case DataDone => s.(dataCallback := false)
    case ErrorCallback => s.(st := ERROR)
  }

  // ----- The inductive invariant -----

  /** What the callbacks can have made of the state since the mutex holder read `seen`. */
  predicate Drifted(seen: StreamState, st: StreamState) {
    st == seen || st.ERROR? || st.DRAINING?
  }

  predicate StartFrom(st: StreamState) {
    st.STOPPED? || st.STOPPING? || st.DRAINING?
  }

  predicate StopFrom(st: StreamState) {
    st.STARTED? || st.STARTING?
  }

  /** The states aaudio_stream_destroy_locked asserts. */
  predicate Destroyable(st: StreamState) {
    st.STOPPED? || st.STOPPING? || st.INIT? || st.DRAINING? || st.ERROR? || st.SHUTDOWN?
  }

  predicate Playing(st: StreamState) {
    st.STARTING? || st.STARTED?
  }

  predicate NonePlaying(loads: seq<StreamState>) {
    forall k | 0 <= k < |loads| :: !Playing(loads[k])
  }

  /** What the state can have been at the n-th load when all n loads missed. */
  predicate Missed(n: nat, st: StreamState) {
    match st
    case STOPPED => n == 0
    case STOPPING => n <= 1
    case INIT => n <= 2
    case DRAINING => n <= 3 || n == 5
    case ERROR => n <= 4
    case SHUTDOWN => n <= 5
    case STARTING => true
    case STARTED => true
  }

  /** The six loads that match nothing: the fourth finds ERROR, SHUTDOWN or a playing stream, the
      fifth DRAINING, SHUTDOWN or a playing stream, and SHUTDOWN is gone at the sixth. */
  predicate MissesAll(loads: seq<StreamState>) {
    && |loads| == 6
    && (loads[3].ERROR? || loads[3].SHUTDOWN? || Playing(loads[3]))
    && (loads[4].DRAINING? || loads[4].SHUTDOWN? || Playing(loads[4]))
    && (loads[4].SHUTDOWN? ==> loads[5].ERROR? || loads[5].DRAINING?)
  }

  predicate LoadsInv(d: Destroyer, loads: seq<StreamState>, st: StreamState) {
    && |loads| <= 5
    && (loads != [] ==> Missed(|loads|, loads[|loads| - 1]) && Drifted(loads[|loads| - 1], st))
    && (|loads| == 5 ==> loads[3].ERROR? || loads[3].SHUTDOWN? || Playing(loads[3]))
    && (d != ByDestroy ==> Destroyable(st) && NonePlaying(loads))
  }

  predicate StartOk(pc: CasPc, expected: StreamState, st: StreamState) {
    st != INIT && pc != Broken && (pc != Read ==> StartFrom(expected) && Drifted(expected, st))
  }

  predicate StopOk(pc: CasPc, expected: StreamState, st: StreamState) {
    st != INIT && pc != Broken && (pc != Read ==> StopFrom(expected) && Drifted(expected, st))
  }

  ghost predicate UpdateOk(upc: UpdatePc, seen: StreamState, next: StreamState, st: StreamState, l: Log) {
    && st != INIT && upc != UpdBroken
    && (upc == Inspect ==> !Settled(seen) && Drifted(seen, st) && (Awaited(seen) ==> seen in l.armed))
    && (upc == UpdCas ==> Awaited(seen) && Drifted(seen, st) && next == Answer(seen)
                          && (seen in l.armed ==> seen.DRAINING?))
  }

  predicate ReinitOk(rpc: ReinitPc, st: StreamState, isOpen: bool) {
    match rpc
    case ReadState => st != INIT
    case Asserting(d, loads) => LoadsInv(d, loads, st)
    case Closing(d, loads, failed) => (failed <==> MissesAll(loads)) && (d != ByDestroy ==> NonePlaying(loads))
    case Initialise => !isOpen && st == INIT
    case StoreStopped => st.INIT? || st.ERROR? || st.DRAINING?
    case StoreError => !isOpen && st == INIT
  }

  ghost predicate JobOk(job: Job, st: StreamState, isOpen: bool, l: Log) {
    match job
    case Start(c, pc, expected) => StartOk(pc, expected, st) && (c.ByReinit? ==> Drifted(STOPPED, st))
    case Stop(_, pc, expected) => StopOk(pc, expected, st)
    case Update(upc, seen, next) => UpdateOk(upc, seen, next, st, l)
    case Reinit(rpc, _) => ReinitOk(rpc, st, isOpen)
    case Free => st != INIT
    case Gone => !isOpen && st == INIT
  }

  /** An awaited state not armed any more has its callback fired and its CAS pending. */
  ghost predicate ArmedOk(job: Job, st: StreamState, l: Log) {
    Awaited(st) && st !in l.armed ==> job.Update? && job.upc == UpdCas && job.seen == st
  }

  ghost predicate CountOk(l: Log) {
    forall x :: l.fired[x] + (if x in l.armed then 1 else 0) <= l.entries[x]
  }

  /** update_state has fired the callback for x and is about to move the stream out of x. */
  predicate Leaving(job: Job, x: StreamState) {
    job.Update? && job.upc == UpdCas && job.seen == x
  }

  predicate ShuttingDown(job: Job) {
    job.Update? && job.upc == ShutStore
  }

  ghost predicate FiredOk(job: Job, l: Log) {
    && (forall x :: l.left[x] + (if Leaving(job, x) then 1 else 0) <= l.fired[x])
    && l.errors == l.shutDowns + (if ShuttingDown(job) then 1 else 0)
  }

  /** While the state says playing the position estimate is timing; in a state that says stopped
      it still is exactly if the stream got there by draining. */
  predicate EstimateOk(st: StreamState, timing: bool, drained: bool) {
    && (st.STARTING? || st.STARTED? ==> timing)
    && (st.STOPPING? ==> !timing)
    && (timing && (st.STOPPED? || st.DRAINING?) ==> drained)
    && (drained ==> timing)
  }

  /** Past its close a reinit has reset the estimate. */
  predicate Reset(job: Job) {
    job.Gone? || (job.Reinit? && (job.rpc.Initialise? || job.rpc.StoreStopped? || job.rpc.StoreError?))
  }

  ghost predicate JobInv(s: State) {
    && JobOk(s.job, s.st, s.isOpen, s.log) && ArmedOk(s.job, s.st, s.log)
    && EstimateOk(s.st, s.timing, s.drained) && (Reset(s.job) ==> !s.timing)
  }

  ghost predicate Inv(s: State) {
    JobInv(s) && CountOk(s.log) && FiredOk(s.job, s.log) && (s.dataCallback ==> s.isOpen && !s.st.DRAINING?)
  }

  lemma EnteredCounts(l: Log, st: StreamState)
    requires CountOk(l)
    ensures CountOk(Entered(l, st))
  {
  }

  lemma AnsweredCounts(l: Log, x: StreamState)
    requires CountOk(l) && x in l.armed
    ensures CountOk(Answered(l, x))
  {
  }

  lemma StartInv(s: State, c: Caller, pc: CasPc, expected: StreamState, ok: bool)
    requires s.job == Start(c, pc, expected) && JobInv(s)
    ensures JobInv(StartDo(s, c, pc, expected, ok))
  {
    if pc.Read? {
    } else if pc.Request? {
    } else {
      StartCasInv(s, c, expected, ok);
    }
  }

  lemma StartCasInv(s: State, c: Caller, expected: StreamState, ok: bool)
    requires s.job == Start(c, Cas, expected) && JobInv(s)
    ensures JobInv(StartDo(s, c, Cas, expected, ok))
  {
    if s.st == expected {
    } else {
    }
  }

  lemma StopInv(s: State, c: Caller, pc: CasPc, expected: StreamState, ok: bool)
    requires s.job == Stop(c, pc, expected) && JobInv(s)
    ensures JobInv(StopDo(s, c, pc, expected, ok))
  {
    if pc.Read? {
    } else if pc.Request? {
    } else {
      StopCasInv(s, c, expected, ok);
    }
  }

  lemma StopCasInv(s: State, c: Caller, expected: StreamState, ok: bool)
    requires s.job == Stop(c, Cas, expected) && JobInv(s)
    ensures JobInv(StopDo(s, c, Cas, expected, ok))
  {
    if s.st == expected {
    } else {
    }
  }

  lemma InspectInv(s: State, seen: StreamState, next: StreamState, ok: bool, reached: bool)
    requires s.job == Update(Inspect, seen, next) && JobInv(s)
    ensures JobInv(InspectDo(s, seen, ok, reached))
  {
    if seen.ERROR? || !ok {
    } else if reached {
    } else {
    }
  }

  lemma UpdateInv(s: State, upc: UpdatePc, seen: StreamState, next: StreamState, ok: bool, reached: bool)
    requires s.job == Update(upc, seen, next) && JobInv(s)
    ensures JobInv(UpdateDo(s, upc, seen, next, ok, reached))
  {
    if upc.Inspect? {
      InspectInv(s, seen, next, ok, reached);
    } else if upc.UpdCas? {
    } else {
    }
  }

  lemma LoadMisses(d: Destroyer, loads: seq<StreamState>, st: StreamState)
    requires LoadsInv(d, loads, st)
    ensures d != ByDestroy ==> NonePlaying(loads + [st])
    ensures st == Expected(|loads|) ==> !MissesAll(loads + [st])
    ensures st != Expected(|loads|) && |loads| < 5 ==> LoadsInv(d, loads + [st], st)
    ensures st != Expected(|loads|) && |loads| == 5 ==> MissesAll(loads + [st])
  {
  }

  lemma ReinitInv(s: State, rpc: ReinitPc, w: bool, ok: bool, leftOpen: bool)
    requires s.job == Reinit(rpc, w) && JobInv(s)
    ensures JobInv(ReinitDo(s, rpc, w, ok, leftOpen))
  {
    if rpc.Asserting? {
      LoadMisses(rpc.d, rpc.loads, s.st);
    } else if rpc.Closing? || rpc.Initialise? {
    } else {
    }
  }

  lemma JobStepInv(s: State, ok: bool, reached: bool)
    requires JobInv(s) && !s.job.Free? && !s.job.Gone?
    ensures JobInv(JobDo(s, ok, reached))
  {
    match s.job
    case Start(c, pc, expected) => StartInv(s, c, pc, expected, ok);
    case Stop(c, pc, expected) => StopInv(s, c, pc, expected, ok);
    case Update(upc, seen, next) => UpdateInv(s, upc, seen, next, ok, reached);
    case Reinit(rpc, w) => ReinitInv(s, rpc, w, ok, reached);
  }

  /** update_state enters nothing; it fires for the awaited state it saw, or not at all. */
  predicate FiresAtMost(l: Log, l': Log, x: StreamState) {
    l' == Answered(l, x) || (l'.armed == l.armed && l'.entries == l.entries && l'.fired == l.fired)
  }

  lemma UpdateLog(s: State, upc: UpdatePc, seen: StreamState, next: StreamState, ok: bool, reached: bool)
    requires upc == UpdCas ==> !Awaited(next)
    ensures var l := UpdateDo(s, upc, seen, next, ok, reached).log;
            FiresAtMost(s.log, l, seen) && (l.fired != s.log.fired ==> upc == Inspect && Awaited(seen))
  {
    if upc == Inspect {
      InspectLog(s, seen, ok, reached);
      assert UpdateDo(s, upc, seen, next, ok, reached) == InspectDo(s, seen, ok, reached);
    } else {
      OnlyInspectFires(s, upc, seen, next, ok, reached);
    }
  }

  lemma OnlyInspectFires(s: State, upc: UpdatePc, seen: StreamState, next: StreamState, ok: bool, reached: bool)
    requires upc != Inspect && (upc == UpdCas ==> !Awaited(next))
    ensures var l := UpdateDo(s, upc, seen, next, ok, reached).log;
            l.armed == s.log.armed && l.entries == s.log.entries && l.fired == s.log.fired
  {
  }

  lemma InspectLog(s: State, seen: StreamState, ok: bool, reached: bool)
    ensures var l := InspectDo(s, seen, ok, reached).log;
            FiresAtMost(s.log, l, seen) && (l.fired != s.log.fired ==> Awaited(seen))
  {
    if seen.ERROR? || !ok {
    } else {
    }
  }

  /** All other jobs fire nothing, and enter at most the state they leave. */
  lemma OtherLog(s: State, ok: bool, reached: bool)
    requires !s.job.Update?
    ensures var s' := JobDo(s, ok, reached);
            s'.log == s.log || s'.log == Entered(s.log, s'.st)
  {
    match s.job
    case Start(c, pc, expected) => StartLog(s, c, pc, expected, ok);
    case Stop(c, pc, expected) => StopLog(s, c, pc, expected, ok);
    case Reinit(rpc, w) => ReinitLog(s, rpc, w, ok, reached);
    case Free =>
    case Gone =>
  }

  lemma StartLog(s: State, c: Caller, pc: CasPc, expected: StreamState, ok: bool)
    ensures var s' := StartDo(s, c, pc, expected, ok); s'.log == s.log || s'.log == Entered(s.log, s'.st)
  {
    if pc.Cas? && s.st == expected {
    } else {
    }
  }

  lemma StopLog(s: State, c: Caller, pc: CasPc, expected: StreamState, ok: bool)
    ensures var s' := StopDo(s, c, pc, expected, ok); s'.log == s.log || s'.log == Entered(s.log, s'.st)
  {
    if pc.Cas? && s.st == expected {
    } else {
    }
  }

  lemma ReinitLog(s: State, rpc: ReinitPc, w: bool, ok: bool, leftOpen: bool)
    ensures ReinitDo(s, rpc, w, ok, leftOpen).log == s.log
  {
  }

  lemma CountJob(s: State, ok: bool, reached: bool)
    requires JobInv(s) && CountOk(s.log)
    ensures CountOk(JobDo(s, ok, reached).log)
  {
    if s.job.Update? {
      UpdateLog(s, s.job.upc, s.job.seen, s.job.next, ok, reached);
      if s.job.upc == Inspect && Awaited(s.job.seen) {
        AnsweredCounts(s.log, s.job.seen);
      }
    } else {
      OtherLog(s, ok, reached);
      EnteredCounts(s.log, JobDo(s, ok, reached).st);
    }
  }

  lemma FiredJob(s: State, ok: bool, reached: bool)
    requires JobInv(s) && FiredOk(s.job, s.log)
    ensures FiredOk(JobDo(s, ok, reached).job, JobDo(s, ok, reached).log)
  {
    if s.job.Update? {
      FiredUpdate(s, s.job.upc, s.job.seen, s.job.next, ok, reached);
    } else {
      OtherLog(s, ok, reached);
      OthersDoNotUpdate(s, ok, reached);
      KeepsFired(s.job, s.log, JobDo(s, ok, reached).job, JobDo(s, ok, reached).log);
    }
  }

  lemma OthersDoNotUpdate(s: State, ok: bool, reached: bool)
    requires !s.job.Update?
    ensures !JobDo(s, ok, reached).job.Update?
  {
    match s.job
    case Start(c, pc, expected) => StartDoesNotUpdate(s, c, pc, expected, ok);
    case Stop(c, pc, expected) => StopDoesNotUpdate(s, c, pc, expected, ok);
    case Reinit(rpc, w) =>
    case Free =>
    case Gone =>
  }

  lemma StartDoesNotUpdate(s: State, c: Caller, pc: CasPc, expected: StreamState, ok: bool)
    requires s.job == Start(c, pc, expected)
    ensures !StartDo(s, c, pc, expected, ok).job.Update?
  {
  }

  lemma StopDoesNotUpdate(s: State, c: Caller, pc: CasPc, expected: StreamState, ok: bool)
    requires s.job == Stop(c, pc, expected)
    ensures !StopDo(s, c, pc, expected, ok).job.Update?
  {
  }

  lemma KeepsFired(job: Job, l: Log, job': Job, l': Log)
    requires FiredOk(job, l) && !job.Update? && !job'.Update?
    requires l'.left == l.left && l'.fired == l.fired && l'.errors == l.errors && l'.shutDowns == l.shutDowns
    ensures FiredOk(job', l')
  {
    forall x
      ensures l'.left[x] + (if Leaving(job', x) then 1 else 0) <= l'.fired[x]
    {
      assert l.left[x] + (if Leaving(job, x) then 1 else 0) <= l.fired[x];
    }
  }

  lemma FiredUpdate(s: State, upc: UpdatePc, seen: StreamState, next: StreamState, ok: bool, reached: bool)
    requires s.job == Update(upc, seen, next) && FiredOk(s.job, s.log)
    ensures var s' := UpdateDo(s, upc, seen, next, ok, reached); FiredOk(s'.job, s'.log)
  {
    match upc
    case Inspect => FiredInspect(s, seen, next, ok, reached);
    case UpdRead =>
    case UpdCas => FiredCas(s, seen, next);
    case ShutStore =>
    case UpdBroken =>
  }

  lemma FiredInspect(s: State, seen: StreamState, next: StreamState, ok: bool, reached: bool)
    requires s.job == Update(Inspect, seen, next) && FiredOk(s.job, s.log)
    ensures var s' := InspectDo(s, seen, ok, reached); FiredOk(s'.job, s'.log)
  {
    var s' := InspectDo(s, seen, ok, reached);
    if s'.job == Update(UpdCas, seen, Answer(seen)) {
      FiringLeaves(s.job, s.log, seen, s'.job, s'.log);
    } else {
    }
  }

  lemma FiringLeaves(job: Job, l: Log, x: StreamState, job': Job, l': Log)
    requires FiredOk(job, l) && !ShuttingDown(job) && job'.Update? && job'.upc == UpdCas && job'.seen == x
    requires l' == Answered(l, x)
    ensures FiredOk(job', l')
  {
    forall y
      ensures l'.left[y] + (if Leaving(job', y) then 1 else 0) <= l'.fired[y]
    {
      assert l.left[y] + (if Leaving(job, y) then 1 else 0) <= l.fired[y];
    }
  }

  lemma FiredCas(s: State, seen: StreamState, next: StreamState)
    requires s.job == Update(UpdCas, seen, next) && FiredOk(s.job, s.log)
    ensures var s' := UpdateDo(s, UpdCas, seen, next, true, true); FiredOk(s'.job, s'.log)
  {
    if s.st == seen {
      LeavingLeaves(s.job, s.log, seen, UpdateDo(s, UpdCas, seen, next, true, true).log);
    }
  }

  lemma LeavingLeaves(job: Job, l: Log, x: StreamState, l': Log)
    requires FiredOk(job, l) && Leaving(job, x)
    requires l'.left == Left(l, x).left && l'.fired == l.fired && l'.errors == l.errors && l'.shutDowns == l.shutDowns
    ensures FiredOk(Free, l')
  {
    forall y
      ensures l'.left[y] <= l'.fired[y]
    {
      assert l.left[y] + (if Leaving(job, y) then 1 else 0) <= l.fired[y];
    }
  }

  lemma JobKeepsOpen(s: State, ok: bool, reached: bool)
    requires s.dataCallback ==> s.isOpen && !s.st.DRAINING?
    requires Enabled(s, JobStep(ok, reached)) && JobInv(s)
    ensures JobDo(s, ok, reached).dataCallback ==> JobDo(s, ok, reached).isOpen && !JobDo(s, ok, reached).st.DRAINING?
  {
    match s.job
    case Start(c, pc, expected) =>
    case Stop(c, pc, expected) =>
    case Update(upc, seen, next) =>
    case Reinit(rpc, w) =>
  }

  /** A store by a callback: of ERROR, or of DRAINING. */
  lemma DriftKeepsJob(job: Job, st: StreamState, isOpen: bool, l: Log, new_: StreamState)
    requires JobOk(job, st, isOpen, l) && isOpen && (new_.ERROR? || new_.DRAINING?)
    ensures JobOk(job, new_, isOpen, Entered(l, new_)) && ArmedOk(job, new_, Entered(l, new_))
  {
    match job
    case Start(_, pc, expected) =>
    case Stop(_, pc, expected) =>
    case Update(upc, seen, next) =>
    case Reinit(rpc, _) =>
    case Free =>
    case Gone =>
  }

  lemma CallbackStepInv(s: State, step: Step)
    requires Inv(s) && Enabled(s, step)
    requires step.DataCallback? || step.DataStore? || step.DataDone? || step.ErrorCallback?
    ensures Inv(Do(s, step))
  {
    if step.DataStore? {
      DriftKeepsJob(s.job, s.st, s.isOpen, s.log, step.st);
      EnteredCounts(s.log, step.st);
    } else if step.ErrorCallback? {
      DriftKeepsJob(s.job, s.st, s.isOpen, s.log, ERROR);
    }
  }

  lemma InvStep(s: State, step: Step)
    requires Inv(s) && Enabled(s, step)
    ensures Inv(Do(s, step))
  {
    if step.JobStep? {
      JobStepInv(s, step.ok, step.reached);
      CountJob(s, step.ok, step.reached);
      FiredJob(s, step.ok, step.reached);
      JobKeepsOpen(s, step.ok, step.reached);
    } else if step.DataCallback? || step.DataStore? || step.DataDone? || step.ErrorCallback? {
      CallbackStepInv(s, step);
    }
  }

  // ----- Runs -----

  ghost predicate Run(s: State, steps: seq<Step>, s': State)
    decreases |steps|
  {
    if steps == [] then s' == s
    else Enabled(s, steps[0]) && Run(Do(s, steps[0]), steps[1..], s')
  }

  lemma {:induction false} InvRun(s: State, steps: seq<Step>, s': State)
    requires Inv(s) && Run(s, steps, s')
    ensures Inv(s')
    decreases |steps|
  {
    if steps != [] {
      InvStep(s, steps[0]);
      InvRun(Do(s, steps[0]), steps[1..], s');
    }
  }

  lemma Reachable(s: State, steps: seq<Step>, s': State)
    requires Init(s) && Run(s, steps, s')
    ensures Inv(s')
  {
    InvRun(s, steps, s');
  }

  /** The state a compare-exchange of start, stop or update_state is about to compare with. */
  function Comparing(s: State): (r: seq<StreamState>) {
    match s.job
    case Start(_, pc, expected) => if pc.Cas? then [expected] else []
    case Stop(_, pc, expected) => if pc.Cas? then [expected] else []
    case Update(upc, seen, _) => if upc.UpdCas? then [seen] else []
    case _ => []
  }

  /** No compare-exchange ever replaces ERROR; and one that fails has met ERROR or DRAINING,
      nothing else, so none of the default branches behind them is reachable. */
  lemma CompareExchangeDiscipline(s: State, steps: seq<Step>, s': State)
    requires Init(s) && Run(s, steps, s') && Comparing(s') != []
    ensures s'.st == Comparing(s')[0] ==> s'.st != ERROR
    ensures s'.st != Comparing(s')[0] ==> s'.st.ERROR? || s'.st.DRAINING?
  {
    Reachable(s, steps, s');
  }

  /** No assert(false) of start, stop or update_state is ever reached, no user call finds the
      stream in INIT, and opening it again always does. */
  lemma AssertionsHold(s: State, steps: seq<Step>, s': State)
    requires Init(s) && Run(s, steps, s')
    ensures s'.job.Start? || s'.job.Stop? ==> s'.job.pc != Broken && s'.st != INIT
    ensures s'.job.Update? ==> s'.job.upc != UpdBroken
    ensures s'.job.Reinit? && s'.job.rpc.Initialise? ==> s'.st == INIT
    ensures s'.job.Free? ==> s'.st != INIT
  {
    Reachable(s, steps, s');
  }

  /** The assertion of destroy_locked, called by a reinit or by the user, fails in a run exactly if
      its loads are those of `MissesAll`. A reinit never finds the stream playing; and on a stream
      neither playing nor shut down it fails exactly if the fourth load finds ERROR and the fifth
      DRAINING. */
  lemma DestroyAssertionFailsIff(s: State, steps: seq<Step>, s': State)
    requires Init(s) && Run(s, steps, s') && s'.job.Reinit? && s'.job.rpc.Closing?
    ensures var loads := s'.job.rpc.loads;
            && (s'.job.rpc.failed <==> MissesAll(loads))
            && (s'.job.rpc.d != ByDestroy ==> NonePlaying(loads))
            && (NonePlaying(loads) && SHUTDOWN !in loads ==>
                  (s'.job.rpc.failed <==> |loads| == 6 && loads[3].ERROR? && loads[4].DRAINING?))
  {
    Reachable(s, steps, s');
    var loads := s'.job.rpc.loads;
    if |loads| == 6 && SHUTDOWN !in loads {
      assert loads[3] != SHUTDOWN && loads[4] != SHUTDOWN;
    }
  }

  /** Between two of those loads only a callback stores, and DRAINING comes from a data callback
      alone. */
  lemma OnlyCallbacksStoreMeanwhile(s: State, step: Step)
    requires Enabled(s, step) && s.job.Reinit? && s.job.rpc.Asserting? && Do(s, step).st != s.st
    ensures step.DataStore? || step == ErrorCallback
    ensures Do(s, step).st == DRAINING ==> step == DataStore(DRAINING)
  {
    if step.JobStep? {
      AssertingStoresNothing(s, step.ok, step.reached);
    }
  }

  lemma AssertingStoresNothing(s: State, ok: bool, leftOpen: bool)
    requires s.job.Reinit? && s.job.rpc.Asserting?
    ensures JobDo(s, ok, leftOpen).st == s.st
  {
  }

  /** ERROR is left only by a data callback's store of DRAINING, by the store of SHUTDOWN that
      follows the error callback, or by a reinit, which replaces the whole stream. */
  lemma ErrorLeavesBy(s: State, steps: seq<Step>, s': State, step: Step)
    requires Init(s) && Run(s, steps, s') && Enabled(s', step)
    requires s'.st == ERROR && Do(s', step).st != ERROR
    ensures step == DataStore(DRAINING) || step.JobStep?
    ensures step.JobStep? ==> s'.job.Reinit? || (s'.job.Update? && s'.job.upc == ShutStore)
  {
    Reachable(s, steps, s');
    if step.JobStep? {
      JobLeavesError(s', step.ok, step.reached);
    }
  }

  lemma JobLeavesError(s: State, ok: bool, reached: bool)
    requires JobInv(s) && s.st == ERROR
    ensures JobDo(s, ok, reached).st == ERROR || s.job.Reinit? || (s.job.Update? && s.job.upc == ShutStore)
  {
    match s.job
    case Start(c, pc, expected) =>
    case Stop(c, pc, expected) =>
    case Update(upc, seen, next) =>
    case Reinit(rpc, w) =>
    case Free =>
    case Gone =>
  }

  /** Each entry into STARTING, STOPPING or DRAINING is answered by at most one state callback:
      a callback fires only for an entry not answered yet, and over the whole run there are no
      more callbacks for a state than entries into it. */
  lemma AtMostOneCallbackPerEntry(s: State, steps: seq<Step>, s': State, step: Step)
    requires Init(s) && Run(s, steps, s') && Enabled(s', step)
    ensures s'.log.fired <= s'.log.entries
    ensures forall x :: Do(s', step).log.fired[x] > s'.log.fired[x]
                        ==> Awaited(x) && x in s'.log.armed && x !in Do(s', step).log.armed
  {
    Reachable(s, steps, s');
    assert forall x :: s'.log.fired[x] <= s'.log.entries[x];
    if step.JobStep? {
      FiresOnlyArmed(s', step.ok, step.reached);
    }
  }

  lemma FiresOnlyArmed(s: State, ok: bool, reached: bool)
    requires Inv(s)
    ensures var l := JobDo(s, ok, reached).log;
            forall x :: l.fired[x] > s.log.fired[x] ==> Awaited(x) && x in s.log.armed && x !in l.armed
  {
    if s.job.Update? {
      UpdateLog(s, s.job.upc, s.job.seen, s.job.next, ok, reached);
    } else {
      OtherLog(s, ok, reached);
    }
  }

  /** A step enters at most the state it leaves, or answers one. */
  ghost predicate LogMoves(l: Log, l': Log, st: StreamState) {
    || (l'.armed <= l.armed && l'.entries == l.entries)
    || (l'.armed == Entered(l, st).armed && l'.entries == Entered(l, st).entries)
  }

  lemma StepLog(s: State, step: Step)
    requires Inv(s) && Enabled(s, step)
    ensures LogMoves(s.log, Do(s, step).log, Do(s, step).st)
  {
    if step.JobStep? {
      if s.job.Update? {
        UpdateLog(s, s.job.upc, s.job.seen, s.job.next, step.ok, step.reached);
      } else {
        OtherLog(s, step.ok, step.reached);
      }
    }
  }

  /** The state thread moves a stream out of STARTING, STOPPING or DRAINING only after the state
      callback for it, and shuts it down only after the error callback: each move has a callback
      of its own, and each callback an entry of its own. */
  lemma NoneLeavesUnreported(s: State, steps: seq<Step>, s': State, x: StreamState)
    requires Init(s) && Run(s, steps, s')
    ensures s'.log.left[x] + (if Leaving(s'.job, x) then 1 else 0) <= s'.log.fired[x] <= s'.log.entries[x]
    ensures s'.log.errors == s'.log.shutDowns + (if ShuttingDown(s'.job) then 1 else 0)
  {
    Reachable(s, steps, s');
  }

  /** What a change of the state by update_state can be: STARTING to STARTED, STOPPING or DRAINING
      to STOPPED, counted as left and answered since it was entered (a DRAINING stored once more
      meanwhile shares the answer), or the store of SHUTDOWN. */
  lemma UpdateChanges(s: State, steps: seq<Step>, s': State, step: Step)
    requires Init(s) && Run(s, steps, s') && Enabled(s', step) && s'.job.Update? && step.JobStep?
    ensures var t := Do(s', step);
            t.st == s'.st
            || (&& ((s'.st.STARTING? && t.st.STARTED?) || ((s'.st.STOPPING? || s'.st.DRAINING?) && t.st.STOPPED?))
                && t.log.left == s'.log.left + multiset{s'.st} && (s'.st in s'.log.armed ==> s'.st.DRAINING?))
            || (t.st.SHUTDOWN? && t.log.shutDowns == s'.log.shutDowns + 1)
  {
    Reachable(s, steps, s');
  }

  /** And once AAudio has got there, one update_state that no callback interferes with reports the
      state the stream is in and moves it on. */
  lemma UpdateAnswers(s: State, steps: seq<Step>, s': State) returns (steps': seq<Step>, t: State)
    requires Init(s) && Run(s, steps, s') && s'.job.Free? && Awaited(s'.st)
    ensures Run(s, steps', t) && Alone(steps, steps', LockUpdate, true) && t.job.Free?
    ensures t.st == (if s'.st.STARTING? then STARTED else STOPPED)
    ensures t.log.fired == s'.log.fired + multiset{s'.st} && t.log.left == s'.log.left + multiset{s'.st}
  {
    steps', t := Then(s, steps, s', LockUpdate);
    steps', t := Then(s, steps', t, JobStep(true, true));
    steps', t := Then(s, steps', t, JobStep(true, true));
    steps', t := Then(s, steps', t, JobStep(true, true));
  }

  /** The same for a stream in ERROR and both AAudio streams at rest. */
  lemma UpdateShutsDown(s: State, steps: seq<Step>, s': State) returns (steps': seq<Step>, t: State)
    requires Init(s) && Run(s, steps, s') && s'.job.Free? && s'.st.ERROR?
    ensures Run(s, steps', t) && Alone(steps, steps', LockUpdate, true) && t.job.Free?
    ensures t.st == SHUTDOWN && t.log.errors == s'.log.errors + 1
  {
    steps', t := Then(s, steps, s', LockUpdate);
    steps', t := Then(s, steps', t, JobStep(true, true));
    steps', t := Then(s, steps', t, JobStep(true, true));
    steps', t := Then(s, steps', t, JobStep(true, true));
  }

  /** An answered state is armed again only by a new entry into it. */
  lemma OnlyEntriesArm(s: State, steps: seq<Step>, s': State, step: Step, x: StreamState)
    requires Init(s) && Run(s, steps, s') && Enabled(s', step)
    requires x !in s'.log.armed && x in Do(s', step).log.armed
    ensures Do(s', step).log.entries == s'.log.entries + multiset{x} && Do(s', step).st == x
  {
    Reachable(s, steps, s');
    StepLog(s', step);
    var t := Do(s', step);
    MovesArm(s'.log, t.log, t.st, x);
  }

  lemma MovesArm(l: Log, l': Log, st: StreamState, x: StreamState)
    requires LogMoves(l, l', st) && x !in l.armed && x in l'.armed
    ensures l'.entries == l.entries + multiset{x} && st == x
  {
    EntryArms(l, st, x);
  }

  lemma EntryArms(l: Log, st: StreamState, x: StreamState)
    requires x !in l.armed
    ensures x in Entered(l, st).armed ==> Entered(l, st).entries == l.entries + multiset{x} && st == x
  {
  }

  /** The position estimate's assertion in stop() always holds: a successful compare-exchange
      into STOPPING finds it timing. The one in start() fails exactly if a data callback has
      stored DRAINING since the last successful start, and no successful stop or destroy came
      after that start. */
  lemma TimingAssertions(s: State, steps: seq<Step>, s': State)
    requires Init(s) && Run(s, steps, s') && Comparing(s') == [s'.st]
    ensures s'.job.Stop? ==> s'.timing
    ensures s'.job.Start? ==> (s'.timing <==> s'.drained)
  {
    Reachable(s, steps, s');
  }

  lemma {:induction false} Then(s: State, steps: seq<Step>, s1: State, step: Step)
    returns (steps': seq<Step>, s2: State)
    requires Run(s, steps, s1) && Enabled(s1, step)
    ensures Run(s, steps', s2) && s2 == Do(s1, step) && steps' == steps + [step]
    decreases |steps|
  {
    s2 := Do(s1, step);
    steps' := steps + [step];
    if steps != [] {
      var tail, _ := Then(Do(s, steps[0]), steps[1..], s1, step);
      assert steps'[1..] == tail;
    }
  }

  /** The one in start() can fail: a drained stream is started again while its position
      estimate is still timing. */
  lemma DrainedRestart(s: State) returns (steps: seq<Step>, t: State)
    requires Init(s)
    ensures Run(s, steps, t) && t.job.Start? && Comparing(t) == [t.st] && t.timing
  {
    var go := JobStep(true, true);
    steps, t := Started(s);
    steps, t := Then(s, steps, t, DataCallback);
    steps, t := Then(s, steps, t, DataStore(DRAINING));
    steps, t := Then(s, steps, t, LockStart);
    steps, t := Then(s, steps, t, go);
    steps, t := Then(s, steps, t, go);
  }

  lemma Started(s: State) returns (steps: seq<Step>, t: State)
    requires Init(s)
    ensures Run(s, steps, t) && t.st == STARTING && t.job.Free? && t.isOpen && !t.dataCallback && t.timing
  {
    var go := JobStep(true, true);
    steps, t := Then(s, [], s, LockStart);
    steps, t := Then(s, steps, t, go);
    steps, t := Then(s, steps, t, go);
    steps, t := Then(s, steps, t, go);
  }

  /** The state at an assertion of destroyer d that has yet to load anything. */
  predicate AboutToAssert(s: State, d: Destroyer, st: StreamState) {
    s.st == st && s.isOpen && s.job.Reinit? && s.job.rpc == Asserting(d, [])
  }

  /** The assertion has failed because DRAINING replaced ERROR between the fourth and the fifth
      load. */
  predicate DrainedOverError(s: State, d: Destroyer) {
    && s.job.Reinit? && s.job.rpc == Closing(d, [ERROR, ERROR, ERROR, ERROR, DRAINING, DRAINING], true)
  }

  /** With a data callback in flight, that can happen to any destroy of a stream in ERROR. */
  lemma DrainDuringDestroy(s: State, steps: seq<Step>, s1: State, d: Destroyer) returns (steps': seq<Step>, t: State)
    requires Run(s, steps, s1) && AboutToAssert(s1, d, ERROR) && s1.dataCallback
    ensures Run(s, steps', t) && steps <= steps' && DrainedOverError(t, d)
  {
    steps', t := SameLoads(s, steps, s1, d, ERROR, 4);
    assert Same(ERROR, 4) == [ERROR, ERROR, ERROR, ERROR];
    steps', t := Then(s, steps', t, DataStore(DRAINING));
    steps', t := Then(s, steps', t, JobStep(true, true));
    steps', t := Then(s, steps', t, JobStep(true, true));
  }

  /** One load that misses. */
  lemma LoadOnce(s: State, steps: seq<Step>, s1: State, d: Destroyer, loads: seq<StreamState>, st: StreamState)
    returns (steps': seq<Step>, t: State)
    requires Run(s, steps, s1) && s1.st == st && s1.job.Reinit? && s1.job.rpc == Asserting(d, loads)
    requires |loads| < 5 && st != Expected(|loads|)
    ensures Run(s, steps', t) && steps' == steps + [JobStep(true, true)]
    ensures t.st == st && t.job.Reinit? && t.job.rpc == Asserting(d, loads + [st])
    ensures t.isOpen == s1.isOpen && t.dataCallback == s1.dataCallback && t.job.wasPlaying == s1.job.wasPlaying
  {
    steps', t := Then(s, steps, s1, JobStep(true, true));
  }

  function Same(st: StreamState, n: nat): (l: seq<StreamState>)
    ensures |l| == n && forall k | 0 <= k < n :: l[k] == st
  {
    if n == 0 then [] else Same(st, n - 1) + [st]
  }

  /** The first n loads of a state that matches none of them. */
  lemma {:induction false} SameLoads(s: State, steps: seq<Step>, s1: State, d: Destroyer, st: StreamState, n: nat)
    returns (steps': seq<Step>, t: State)
    requires Run(s, steps, s1) && AboutToAssert(s1, d, st)
    requires n <= 5 && forall k | 0 <= k < n :: Expected(k) != st
    ensures Run(s, steps', t) && steps <= steps' && forall k | |steps| <= k < |steps'| :: steps'[k] == JobStep(true, true)
    ensures t.st == st && t.job.Reinit? && t.job.rpc == Asserting(d, Same(st, n))
    ensures t.isOpen == s1.isOpen && t.dataCallback == s1.dataCallback && t.job.wasPlaying == s1.job.wasPlaying
  {
    if n == 0 {
      steps', t := steps, s1;
    } else {
      steps', t := SameLoads(s, steps, s1, d, st, n - 1);
      steps', t := LoadOnce(s, steps', t, d, Same(st, n - 1), st);
    }
  }

  /** A whole run in which it happens to the destroy of a reinit. */
  lemma DrainDuringReinit(s: State) returns (steps: seq<Step>, t: State)
    requires Init(s)
    ensures Run(s, steps, t) && DrainedOverError(t, InReinit)
  {
    steps, t := Started(s);
    steps, t := Then(s, steps, t, DataCallback);
    steps, t := Then(s, steps, t, ErrorCallback);
    steps, t := Then(s, steps, t, LockReinit);
    steps, t := Then(s, steps, t, JobStep(true, true));
    steps, t := Then(s, steps, t, JobStep(true, true));
    steps, t := DrainDuringDestroy(s, steps, t, InReinit);
  }

  /** A user's stop before a user's destroy. */
  predicate StopThenDestroy(steps: seq<Step>) {
    exists j, k :: 0 <= j < k < |steps| && steps[j] == LockStop && steps[k] == LockDestroy
  }

  /** And one in which it happens to the destroy of a user who has called stop before. */
  lemma DrainDuringUserDestroy(s: State) returns (steps: seq<Step>, t: State)
    requires Init(s)
    ensures Run(s, steps, t) && StopThenDestroy(steps) && DrainedOverError(t, ByDestroy)
  {
    steps, t := Started(s);
    steps, t := Then(s, steps, t, DataCallback);
    steps, t := Then(s, steps, t, ErrorCallback);
    steps, t := Then(s, steps, t, LockStop);
    steps, t := Then(s, steps, t, JobStep(true, true));
    steps, t := Then(s, steps, t, LockDestroy);
    var j, k := |steps| - 3, |steps| - 1;
    assert steps[j] == LockStop && steps[k] == LockDestroy;
    steps, t := DrainDuringDestroy(s, steps, t, ByDestroy);
    assert steps[j] == LockStop && steps[k] == LockDestroy;
  }

  /** It can fail on a stream that is shut down too, if an error callback of the stopped stream
      stores ERROR between the fifth and the sixth load. */
  lemma ErrorDuringDestroy(s: State) returns (steps: seq<Step>, t: State)
    requires Init(s)
    ensures Run(s, steps, t) && t.job.Reinit?
    ensures t.job.rpc == Closing(InReinit, [SHUTDOWN, SHUTDOWN, SHUTDOWN, SHUTDOWN, SHUTDOWN, ERROR], true)
  {
    steps, t := ShutDown(s);
    steps, t := SameLoads(s, steps, t, InReinit, SHUTDOWN, 5);
    assert Same(SHUTDOWN, 5) == [SHUTDOWN, SHUTDOWN, SHUTDOWN, SHUTDOWN, SHUTDOWN];
    steps, t := Then(s, steps, t, ErrorCallback);
    steps, t := Then(s, steps, t, JobStep(true, true));
  }

  lemma ShutDown(s: State) returns (steps: seq<Step>, t: State)
    requires Init(s)
    ensures Run(s, steps, t) && AboutToAssert(t, InReinit, SHUTDOWN)
  {
    steps, t := ErrorReported(s);
    steps, t := Then(s, steps, t, LockReinit);
    steps, t := Then(s, steps, t, JobStep(true, true));
    steps, t := Then(s, steps, t, JobStep(true, true));
  }

  lemma ErrorReported(s: State) returns (steps: seq<Step>, t: State)
    requires Init(s)
    ensures Run(s, steps, t) && t.st == SHUTDOWN && t.job.Free? && t.isOpen
  {
    var go := JobStep(true, true);
    steps, t := Then(s, [], s, ErrorCallback);
    steps, t := Then(s, steps, t, LockUpdate);
    steps, t := Then(s, steps, t, go);
    steps, t := Then(s, steps, t, go);
    steps, t := Then(s, steps, t, go);
  }

  // ----- A stop that is undone -----

  predicate NoUserStart(steps: seq<Step>) {
    forall k | 0 <= k < |steps| :: steps[k] != LockStart
  }

  /** A stop the user has called can be undone: with the stream draining stop leaves it to drain,
      and a reinit starts a draining stream again. So a user who stops before destroying can find
      the stream playing. `before` ends with that stop, `after` has no start of the user. */
  lemma StopIsUndone(s: State) returns (before: seq<Step>, m: State, after: seq<Step>, t: State)
    requires Init(s)
    ensures Run(s, before, m) && |before| >= 2 && before[|before| - 2] == LockStop && m.job.Free?
    ensures Run(m, after, t) && NoUserStart(after) && t.st == STARTING && t.job.Free?
  {
    before, m := Started(s);
    before, m := Then(s, before, m, DataCallback);
    before, m := Then(s, before, m, DataStore(DRAINING));
    before, m := Then(s, before, m, LockStop);
    before, m := Then(s, before, m, JobStep(true, true));
    assert m.st == DRAINING && m.job.Free? && m.isOpen && !m.dataCallback;
    after, t := ReinitAlone(m, [], m);
  }

  /** While the stream is draining no data callback is past its check, so none stores anything. */
  lemma DrainingMutesDataCallbacks(s: State, steps: seq<Step>, s': State)
    requires Init(s) && Run(s, steps, s') && s'.st.DRAINING?
    ensures !s'.dataCallback && forall st :: !Enabled(s', DataStore(st))
  {
    Reachable(s, steps, s');
  }

  /** The restart that ends a reinit: it is over with the stream starting or draining, and goes on to
      destroy what it has opened exactly if the stream is in ERROR, whatever callbacks did. */
  lemma RestartOutcome(s: State, steps: seq<Step>, s': State, ok: bool, reached: bool)
    requires Init(s) && Run(s, steps, s') && s'.job.Start? && s'.job.c.ByReinit?
    ensures var t := JobDo(s', ok, reached);
            && (t.job.Free? ==> t.st.STARTING? || t.st.DRAINING?)
            && (t.job.Reinit? ==> t.st.ERROR? && t.job.rpc == Asserting(AfterFailure, []))
            && (t.job.Free? || t.job.Reinit? || t.job.Start?)
  {
    Reachable(s, steps, s');
  }

  /** An update_state that meets an error after its callback shuts the stream down at once. */
  lemma MetErrorShutsDown(s: State, steps: seq<Step>, s': State) returns (steps': seq<Step>, t: State)
    requires Init(s) && Run(s, steps, s') && s'.job.Update? && s'.job.upc.UpdCas? && s'.st.ERROR?
    ensures Run(s, steps', t) && steps' == steps + [JobStep(true, true), JobStep(true, true), JobStep(true, true)]
    ensures t.job.Free? && t.st == SHUTDOWN && t.log.errors == s'.log.errors + 1 && t.log.left == s'.log.left
  {
    Reachable(s, steps, s');
    steps', t := Then(s, steps, s', JobStep(true, true));
    steps', t := Then(s, steps', t, JobStep(true, true));
    steps', t := Then(s, steps', t, JobStep(true, true));
  }

  // ----- What an undisturbed call does -----

  /** `steps'` goes on from `steps` with one call and moves of that call alone, all of them successful
      ones if `ok`. */
  predicate Alone(steps: seq<Step>, steps': seq<Step>, call: Step, ok: bool) {
    && |steps| < |steps'| && steps <= steps' && steps'[|steps|] == call
    && forall k | |steps| < k < |steps'| :: steps'[k] == JobStep(ok, true)
  }

  /** A user's start takes a stopped, stopping or draining stream to STARTING, or to ERROR if AAudio
      refuses, and leaves all other states. */
  lemma StartStarts(s: State, steps: seq<Step>, s': State, ok: bool) returns (steps': seq<Step>, t: State)
    requires Init(s) && Run(s, steps, s') && s'.job.Free?
    ensures Run(s, steps', t) && Alone(steps, steps', LockStart, ok) && t.job.Free?
    ensures var starts := s'.st.STOPPED? || s'.st.STOPPING? || s'.st.DRAINING?;
            && t.st == (if starts then (if ok then STARTING else ERROR) else s'.st)
            && t.log.entries == s'.log.entries + (if starts && ok then multiset{STARTING} else multiset{})
            && t.timing == (s'.timing || (starts && ok))
  {
    Reachable(s, steps, s');
    steps', t := Then(s, steps, s', LockStart);
    steps', t := Then(s, steps', t, JobStep(ok, true));
    if StartFrom(s'.st) {
      steps', t := Then(s, steps', t, JobStep(ok, true));
      if ok {
        steps', t := Then(s, steps', t, JobStep(ok, true));
      }
    }
  }

  /** A user's stop takes a playing stream to STOPPING, or to ERROR, and leaves all other states. */
  lemma StopStops(s: State, steps: seq<Step>, s': State, ok: bool) returns (steps': seq<Step>, t: State)
    requires Init(s) && Run(s, steps, s') && s'.job.Free?
    ensures Run(s, steps', t) && Alone(steps, steps', LockStop, ok) && t.job.Free?
    ensures var stops := s'.st.STARTING? || s'.st.STARTED?;
            && t.st == (if stops then (if ok then STOPPING else ERROR) else s'.st)
            && t.log.entries == s'.log.entries + (if stops && ok then multiset{STOPPING} else multiset{})
            && t.timing == (s'.timing && !(stops && ok))
  {
    Reachable(s, steps, s');
    steps', t := Then(s, steps, s', LockStop);
    steps', t := Then(s, steps', t, JobStep(ok, true));
    if Playing(s'.st) {
      steps', t := Then(s, steps', t, JobStep(ok, true));
      if ok {
        steps', t := Then(s, steps', t, JobStep(ok, true));
      }
    }
  }

  /** A reinit whose calls into AAudio succeed leaves the stream open again: STARTING if it was
      playing or draining, STOPPED from all other states, with the position estimate reset. */
  lemma ReinitRestores(s: State, steps: seq<Step>, s': State) returns (steps': seq<Step>, t: State)
    requires Init(s) && Run(s, steps, s') && s'.job.Free? && s'.isOpen && !s'.dataCallback
    ensures Run(s, steps', t) && Alone(steps, steps', LockReinit, true) && t.job.Free? && t.isOpen
    ensures var played := s'.st.STARTING? || s'.st.STARTED? || s'.st.DRAINING?;
            t.st == (if played then STARTING else STOPPED) && t.timing == played
  {
    Reachable(s, steps, s');
    steps', t := ReinitAlone(s, steps, s');
  }

  lemma ReinitAlone(s: State, steps: seq<Step>, s': State) returns (steps': seq<Step>, t: State)
    requires Run(s, steps, s') && s'.job.Free? && s'.st != INIT && s'.isOpen && !s'.dataCallback
    ensures Run(s, steps', t) && Alone(steps, steps', LockReinit, true) && t.job.Free? && t.isOpen
    ensures var played := Playing(s'.st) || s'.st.DRAINING?;
            t.st == (if played then STARTING else STOPPED) && t.timing == played
  {
    steps', t := ReinitStops(s, steps, s');
    steps', t := DestroyedInReinit(s, steps', t);
    steps', t := Reopened(s, steps', t);
  }

  /** A reinit that fails to open the streams, with the first one left open, closes it again and
      leaves the stream in ERROR for update_state to shut down. */
  lemma FailedReinit(s: State, steps: seq<Step>, s': State) returns (steps': seq<Step>, t: State)
    requires Init(s) && Run(s, steps, s') && s'.job.Free? && s'.isOpen && !s'.dataCallback
    ensures Run(s, steps', t) && |steps| < |steps'| && steps <= steps' && steps'[|steps|] == LockReinit
    ensures forall k | |steps| < k < |steps'| :: steps'[k].JobStep?
    ensures t.job.Free? && t.st == ERROR && !t.isOpen && !t.timing
  {
    Reachable(s, steps, s');
    steps', t := ReinitStops(s, steps, s');
    steps', t := DestroyedInReinit(s, steps', t);
    steps', t := Then(s, steps', t, JobStep(false, true));
    steps', t := SameLoads(s, steps', t, AfterFailure, INIT, 2);
    steps', t := LastLoad(s, steps', t, AfterFailure, 2);
    steps', t := Then(s, steps', t, JobStep(true, true));
    steps', t := Then(s, steps', t, JobStep(true, true));
  }

  lemma ReinitStops(s: State, steps: seq<Step>, s': State) returns (steps': seq<Step>, t: State)
    requires Run(s, steps, s') && s'.job.Free? && s'.st != INIT && s'.isOpen && !s'.dataCallback
    ensures Run(s, steps', t) && Alone(steps, steps', LockReinit, true)
    ensures AboutToAssert(t, InReinit, if Playing(s'.st) then STOPPING else s'.st) && !t.dataCallback
    ensures t.job.wasPlaying == (Playing(s'.st) || s'.st.DRAINING?)
  {
    var go := JobStep(true, true);
    steps', t := Then(s, steps, s', LockReinit);
    steps', t := Then(s, steps', t, go);
    steps', t := Then(s, steps', t, go);
    if Playing(s'.st) {
      steps', t := Then(s, steps', t, go);
      steps', t := Then(s, steps', t, go);
    }
  }

  /** `steps'` goes on from `steps` with successful moves of the call under way. */
  predicate GoesOn(steps: seq<Step>, steps': seq<Step>) {
    steps <= steps' && forall k | |steps| <= k < |steps'| :: steps'[k] == JobStep(true, true)
  }

  lemma DestroyedInReinit(s: State, steps: seq<Step>, s1: State) returns (steps': seq<Step>, t: State)
    requires Run(s, steps, s1) && AboutToAssert(s1, InReinit, s1.st) && Destroyable(s1.st) && !s1.dataCallback
    ensures Run(s, steps', t) && GoesOn(steps, steps')
    ensures t.job == Reinit(Initialise, s1.job.wasPlaying) && t.st == INIT && !t.timing && !t.dataCallback
  {
    var n := if s1.st.STOPPED? then 0 else if s1.st.STOPPING? then 1 else if s1.st.INIT? then 2
             else if s1.st.DRAINING? then 3 else if s1.st.ERROR? then 4 else 5;
    steps', t := SameLoads(s, steps, s1, InReinit, s1.st, n);
    steps', t := LastLoad(s, steps', t, InReinit, n);
    steps', t := Then(s, steps', t, JobStep(true, true));
  }

  lemma LastLoad(s: State, steps: seq<Step>, s1: State, d: Destroyer, n: nat) returns (steps': seq<Step>, t: State)
    requires Run(s, steps, s1) && n <= 5 && Expected(n) == s1.st
    requires s1.job.Reinit? && s1.job.rpc == Asserting(d, Same(s1.st, n))
    ensures Run(s, steps', t) && steps' == steps + [JobStep(true, true)]
    ensures t == s1.(job := t.job) && t.job == Reinit(Closing(d, Same(s1.st, n) + [s1.st], false), s1.job.wasPlaying)
  {
    steps', t := Then(s, steps, s1, JobStep(true, true));
  }

  lemma Reopened(s: State, steps: seq<Step>, s1: State) returns (steps': seq<Step>, t: State)
    requires Run(s, steps, s1) && s1.job.Reinit? && s1.job.rpc.Initialise? && s1.st == INIT && !s1.timing
    ensures Run(s, steps', t) && GoesOn(steps, steps') && t.job.Free? && t.isOpen
    ensures t.st == (if s1.job.wasPlaying then STARTING else STOPPED) && t.timing == s1.job.wasPlaying
  {
    var go := JobStep(true, true);
    steps', t := Then(s, steps, s1, go);
    steps', t := Then(s, steps', t, go);
    if s1.job.wasPlaying {
      steps', t := Then(s, steps', t, go);
      steps', t := Then(s, steps', t, go);
      steps', t := Then(s, steps', t, go);
    }
  }
}
