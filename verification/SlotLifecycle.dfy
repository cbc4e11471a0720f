/** One stream slot of the AAudio backend: threads compete to claim it, callbacks of its open
    stream spawn detached reinit threads, and destroying it takes two phases. One step is one
    atomic access, one lock or unlock, or one call into AAudio. Of AAudio it is assumed that
    callbacks run only on an open stream and that closing a stream waits for them. */
module SlotLifecycle {

  datatype SlotState = FREE | IN_USE | DESTROYING

  datatype Holder = Nobody | ByInit(p: nat) | ByOwner | ByReinit(r: nat)

  /** A thread looking for a free slot, until it claims it. */
  datatype Seeker = SawFree | GotLock | Rechecked

  /** The one thread the slot belongs to, from the claim to the store of FREE. */
  datatype Owner =
    | NoOwner
    | Claimed                 // stored IN_USE, still holds the lock
    | Unlocked
    | Opening                 // aaudio_stream_init_impl under the lock
    | User                    // the stream is handed out
    | WantDestroy             // about to lock for aaudio_stream_destroy
    | Closing
    | Closed                  // streams closed; about to store DESTROYING
    | Marked                  // about to unlock
    | Polling                 // waits for pending_reinit to be 0
    | Freeing                 // read 0; about to store FREE

  datatype Callback =
    | Entered                 // about to compare-exchange pending_reinit
    | Won                     // about to create the reinit thread
    | Leaving

  datatype Phase = WantLock | Check | Body | Reopening | Unlocking | Clearing

  datatype Reinit = Reinit(generation: nat, phase: Phase)

  datatype State = State(
    slot: SlotState,
    pending: int,
    mutex: Holder,
    isOpen: bool,
    generation: nat,
    owner: Owner,
    seekers: map<nat, Seeker>,
    callbacks: map<nat, Callback>,
    reinits: map<nat, Reinit>
  )

  datatype Step =
    | Seek(p: nat)
    | SeekStep(p: nat)
    | OwnerStep(ok: bool)
    | OwnerOpens
    | CallbackEnters(c: nat)
    | CallbackStep(c: nat, r: nat)
    | ReinitStep(r: nat)
    | ReinitOpens(r: nat)
    | ReinitCloses(r: nat)

  ghost predicate Init(s: State) {
    && s.slot == FREE && s.pending == 0 && s.mutex == Nobody && !s.isOpen && s.owner == NoOwner
    && s.seekers == map[] && s.callbacks == map[] && s.reinits == map[]
  }

  predicate Enabled(s: State, step: Step) {
    match step
    case Seek(p) => p !in s.seekers
    case SeekStep(p) => p in s.seekers
    case OwnerStep(ok) =>
      (match s.owner
       case NoOwner => false
       case Unlocked => s.mutex.Nobody?
       case Opening => ok ==> s.isOpen
       case WantDestroy => s.mutex.Nobody?
       case Closing => s.callbacks == map[]
       case _ => true)
    case OwnerOpens => s.owner.Opening?
    case CallbackEnters(c) => s.isOpen && c !in s.callbacks
    case CallbackStep(c, r) => c in s.callbacks && (s.callbacks[c].Won? ==> r !in s.reinits)
    case ReinitStep(r) =>
      && r in s.reinits
      && (s.reinits[r].phase.WantLock? ==> s.mutex.Nobody?)
      && (s.reinits[r].phase.Body? ==> s.callbacks == map[])
    case ReinitOpens(r) => r in s.reinits && s.reinits[r].phase.Reopening?
    case ReinitCloses(r) => r in s.reinits && s.reinits[r].phase.Reopening? && s.callbacks == map[]
  }

  function SeekDo(s: State, p: nat): State
    requires p in s.seekers
  {
    match s.seekers[p]
    case SawFree =>
      if s.mutex.Nobody? then s.(mutex := ByInit(p), seekers := s.seekers[p := GotLock])
      else s.(seekers := s.seekers - {p})
    case GotLock =>
      if s.slot.FREE? then s.(seekers := s.seekers[p := Rechecked])
      else s.(mutex := Nobody, seekers := s.seekers - {p})
    case Rechecked =>
      s.(slot := IN_USE, mutex := ByOwner, owner := Claimed, generation := s.generation + 1,
         seekers := s.seekers - {p})
  }

  function OwnerDo(s: State, ok: bool): State {
    match s.owner
    case NoOwner => s
    case Claimed => s.(mutex := Nobody, owner := Unlocked)
    case Unlocked => s.(mutex := ByOwner, owner := Opening)
    case Opening => s.(mutex := Nobody, owner := if ok then User else WantDestroy)
    case User => s.(owner := WantDestroy)
    case WantDestroy => s.(mutex := ByOwner, owner := Closing)
    case Closing => s.(isOpen := false, owner := Closed)
    case Closed => s.(slot := DESTROYING, owner := Marked)
    case Marked => s.(mutex := Nobody, owner := Polling)
    case Polling => if s.pending > 0 then s else s.(owner := Freeing)
    case Freeing => s.(slot := FREE, owner := NoOwner)
  }

  function CallbackDo(s: State, c: nat, r: nat): State
    requires c in s.callbacks
  {
    match s.callbacks[c]
    case Entered =>
      if s.pending == 0 then s.(pending := 1, callbacks := s.callbacks[c := Won])
      else s.(callbacks := s.callbacks[c := Leaving])
    case Won =>
      s.(reinits := s.reinits[r := Reinit(s.generation, WantLock)],
         callbacks := s.callbacks[c := Leaving])
    case Leaving => s.(callbacks := s.callbacks - {c})
  }

  function ReinitDo(s: State, r: nat): State
    requires r in s.reinits
  {
    var g := s.reinits[r].generation;
    match s.reinits[r].phase
    case WantLock => s.(mutex := ByReinit(r), reinits := s.reinits[r := Reinit(g, Check)])
    case Check =>
      s.(reinits := s.reinits[r := Reinit(g, if s.slot.IN_USE? then Body else Unlocking)])
    case Body => s.(isOpen := false, reinits := s.reinits[r := Reinit(g, Reopening)])
    case Reopening => s.(reinits := s.reinits[r := Reinit(g, Unlocking)])
    case Unlocking => s.(mutex := Nobody, reinits := s.reinits[r := Reinit(g, Clearing)])
    case Clearing => s.(pending := 0, reinits := s.reinits - {r})
  }

  function Do(s: State, step: Step): State
    requires Enabled(s, step)
  {
    match step
    case Seek(p) => if s.slot.FREE? then s.(seekers := s.seekers[p := SawFree]) else s
    case SeekStep(p) => SeekDo(s, p)
    case OwnerStep(ok) => OwnerDo(s, ok)
    case OwnerOpens => s.(isOpen := true)
    case CallbackEnters(c) => s.(callbacks := s.callbacks[c := Entered])
    case CallbackStep(c, r) => CallbackDo(s, c, r)
    case ReinitStep(r) => ReinitDo(s, r)
    case ReinitOpens(_) => s.(isOpen := true)
    case ReinitCloses(_) => s.(isOpen := false)
  }

  // ----- The inductive invariant -----

  predicate OwnerLocks(o: Owner) {
    o.Claimed? || o.Opening? || o.Closing? || o.Closed? || o.Marked?
  }

  predicate ReinitLocks(phase: Phase) {
    !phase.WantLock? && !phase.Clearing?
  }

  ghost predicate LockInv(s: State) {
    && (forall p | p in s.seekers :: s.mutex == ByInit(p) <==> !s.seekers[p].SawFree?)
    && (s.mutex == ByOwner <==> OwnerLocks(s.owner))
    && (forall r | r in s.reinits :: s.mutex == ByReinit(r) <==> ReinitLocks(s.reinits[r].phase))
    && (s.mutex.ByInit? ==> s.mutex.p in s.seekers)
    && (s.mutex.ByReinit? ==> s.mutex.r in s.reinits)
  }

  /** The states of the owner in which no stream can be open. */
  predicate Shut(o: Owner) {
    o.NoOwner? || o.Claimed? || o.Unlocked? || o.Closed? || o.Marked? || o.Polling? || o.Freeing?
  }

  /** Before the first stream of a generation is open, and after it is freed. */
  predicate NoReinitYet(o: Owner) {
    o.NoOwner? || o.Claimed? || o.Unlocked? || o.Freeing?
  }

  ghost predicate SlotInv(s: State) {
    && s.slot == (if s.owner.NoOwner? then FREE
                  else if s.owner.Marked? || s.owner.Polling? || s.owner.Freeing? then DESTROYING
                  else IN_USE)
    && (forall p | p in s.seekers && s.seekers[p].Rechecked? :: s.slot.FREE?)
    && (Shut(s.owner) ==> !s.isOpen)
    && (s.callbacks != map[] ==> s.isOpen)
    && (NoReinitYet(s.owner) ==> s.reinits == map[] && s.pending == 0)
    && (forall r | r in s.reinits && (s.reinits[r].phase.Body? || s.reinits[r].phase.Reopening?)
          :: s.slot.IN_USE?)
  }

  /** A reinit thread exists, or a callback is about to create one. */
  ghost predicate ReinitUnderWay(s: State) {
    s.reinits != map[] || exists c :: c in s.callbacks && s.callbacks[c].Won?
  }

  ghost predicate PendingInv(s: State) {
    && (s.pending == 1 ==> ReinitUnderWay(s))
    && (s.pending == 0 || s.pending == 1)
    && (s.pending == 0 ==> s.reinits == map[])
    && (forall c | c in s.callbacks && s.callbacks[c].Won? :: s.pending == 1 && s.reinits == map[])
    && (forall c, c' | c in s.callbacks && c' in s.callbacks && s.callbacks[c].Won? && s.callbacks[c'].Won?
          :: c == c')
    && (forall r, r' | r in s.reinits && r' in s.reinits :: r == r')
    && (forall r | r in s.reinits :: s.reinits[r].generation == s.generation)
  }

  ghost predicate Inv(s: State) {
    LockInv(s) && SlotInv(s) && PendingInv(s)
  }

  lemma InitInv(s: State)
    requires Init(s)
    ensures Inv(s)
  {
  }

  lemma SeekInv(s: State, p: nat)
    requires Inv(s) && p in s.seekers
    ensures Inv(SeekDo(s, p))
  {
    match s.seekers[p]
    case SawFree =>
    case GotLock =>
    case Rechecked =>
  }

  lemma CallbackKeepsReinit(s: State, c: nat, r: nat)
    requires Inv(s) && Enabled(s, CallbackStep(c, r))
    ensures var s' := CallbackDo(s, c, r); s'.pending == 1 ==> ReinitUnderWay(s')
  {
    var s' := CallbackDo(s, c, r);
    match s.callbacks[c]
    case Entered =>
      if s.pending == 0 {
        assert s'.callbacks[c].Won?;
      } else if s.reinits == map[] {
        var c' :| c' in s.callbacks && s.callbacks[c'].Won?;
        assert s'.callbacks[c'].Won?;
      }
    case Won =>
      assert r in s'.reinits;
    case Leaving =>
      if s.pending == 1 && s.reinits == map[] {
        var c' :| c' in s.callbacks && s.callbacks[c'].Won?;
        assert s'.callbacks[c'].Won?;
      }
  }

  lemma OwnerSetupInv(s: State, ok: bool)
    requires Inv(s) && Enabled(s, OwnerStep(ok))
    requires s.owner.Claimed? || s.owner.Unlocked? || s.owner.Opening? || s.owner.User?
    ensures Inv(OwnerDo(s, ok))
  {
  }

  lemma OwnerDestroyInv(s: State, ok: bool)
    requires Inv(s) && Enabled(s, OwnerStep(ok))
    requires s.owner.WantDestroy? || s.owner.Closing? || s.owner.Closed?
    ensures Inv(OwnerDo(s, ok))
  {
  }

  lemma OwnerFreeInv(s: State, ok: bool)
    requires Inv(s) && Enabled(s, OwnerStep(ok))
    requires s.owner.Marked? || s.owner.Polling? || s.owner.Freeing?
    ensures Inv(OwnerDo(s, ok))
  {
  }

  lemma OwnerInv(s: State, ok: bool)
    requires Inv(s) && Enabled(s, OwnerStep(ok))
    ensures Inv(OwnerDo(s, ok))
  {
    if s.owner.Marked? || s.owner.Polling? || s.owner.Freeing? {
      OwnerFreeInv(s, ok);
    } else if s.owner.WantDestroy? || s.owner.Closing? || s.owner.Closed? {
      OwnerDestroyInv(s, ok);
    } else {
      OwnerSetupInv(s, ok);
    }
  }

  lemma CallbackInv(s: State, c: nat, r: nat)
    requires Inv(s) && Enabled(s, CallbackStep(c, r))
    ensures Inv(CallbackDo(s, c, r))
  {
    CallbackKeepsReinit(s, c, r);
    match s.callbacks[c]
    case Entered =>
    case Won =>
    case Leaving =>
  }

  lemma EnteringKeepsReinit(s: State, c: nat)
    requires Inv(s) && Enabled(s, CallbackEnters(c))
    ensures s.pending == 1 ==> ReinitUnderWay(Do(s, CallbackEnters(c)))
  {
    if s.pending == 1 && s.reinits == map[] {
      var c' :| c' in s.callbacks && s.callbacks[c'].Won?;
      assert Do(s, CallbackEnters(c)).callbacks[c'].Won?;
    }
  }

  lemma ReinitInv(s: State, r: nat)
    requires Inv(s) && Enabled(s, ReinitStep(r))
    ensures Inv(ReinitDo(s, r))
  {
    if s.reinits[r].phase.Clearing? {
      assert ReinitDo(s, r).reinits == map[];
    } else {
      ReinitMovesInv(s, r);
    }
  }

  lemma ReinitMovesInv(s: State, r: nat)
    requires Inv(s) && Enabled(s, ReinitStep(r)) && !s.reinits[r].phase.Clearing?
    ensures Inv(ReinitDo(s, r))
  {
    if s.reinits[r].phase.WantLock? || s.reinits[r].phase.Check? {
    } else {
    }
  }

  lemma InvStep(s: State, step: Step)
    requires Inv(s) && Enabled(s, step)
    ensures Inv(Do(s, step))
  {
    match step
    case Seek(p) =>
    case SeekStep(p) => SeekInv(s, p);
    case OwnerStep(ok) => OwnerInv(s, ok);
    case OwnerOpens =>
    case CallbackEnters(c) => EnteringKeepsReinit(s, c);
    case CallbackStep(c, r) => CallbackInv(s, c, r);
    case ReinitStep(r) => ReinitInv(s, r);
    case ReinitOpens(r) =>
    case ReinitCloses(r) =>
  }

  // ----- Runs -----

  ghost predicate Run(s: State, steps: seq<Step>, s': State)
    decreases |steps|
  {
    if steps == [] then s' == s
    else Enabled(s, steps[0]) && Run(Do(s, steps[0]), steps[1..], s')
  }

  lemma {:induction false} InvRun(s: State, steps: seq<Step>, s': State)
    requires Inv(s) && Run(s, steps, s')
    ensures Inv(s')
    decreases |steps|
  {
    if steps != [] {
      InvStep(s, steps[0]);
      InvRun(Do(s, steps[0]), steps[1..], s');
    }
  }

  /** At most one reinit thread exists per slot, whatever callbacks run at the same time, and it
      belongs to the generation the slot is in. */
  lemma OneReinit(s: State, steps: seq<Step>, s': State, r: nat)
    requires Init(s) && Run(s, steps, s') && r in s'.reinits
    ensures s'.reinits.Keys == {r} && s'.pending == 1
    ensures s'.reinits[r].generation == s'.generation && !s'.slot.FREE?
    ensures forall c | c in s'.callbacks :: !s'.callbacks[c].Won?
  {
    InitInv(s);
    InvRun(s, steps, s');
  }

  /** Past its check of the slot state, a reinit thread works only on a slot in use, in the
      generation that spawned it, with the lock held and its owner not closing it. */
  lemma BodyStaysInGeneration(s: State, steps: seq<Step>, s': State, r: nat)
    requires Init(s) && Run(s, steps, s') && r in s'.reinits
    requires s'.reinits[r].phase.Body? || s'.reinits[r].phase.Reopening?
    ensures s'.slot.IN_USE? && s'.reinits[r].generation == s'.generation
    ensures s'.mutex == ByReinit(r) && !OwnerLocks(s'.owner)
  {
    InitInv(s);
    InvRun(s, steps, s');
  }

  /** FREE is stored only when no reinit thread remains, none is being created, no stream is
      open and no callback runs. */
  lemma FreedWhenQuiet(s: State, steps: seq<Step>, s': State)
    requires Init(s) && Run(s, steps, s') && s'.owner.Freeing?
    ensures s'.reinits == map[] && s'.callbacks == map[] && s'.pending == 0 && !s'.isOpen
  {
    InitInv(s);
    InvRun(s, steps, s');
  }

  /** A slot is claimed by one thread at a time, and only while it belongs to nobody. */
  lemma ClaimsAreExclusive(s: State, steps: seq<Step>, s': State, p: nat)
    requires Init(s) && Run(s, steps, s') && p in s'.seekers && s'.seekers[p].Rechecked?
    ensures s'.owner.NoOwner? && s'.slot.FREE? && s'.reinits == map[] && s'.mutex == ByInit(p)
    ensures forall p' | p' in s'.seekers && s'.seekers[p'].Rechecked? :: p' == p
  {
    InitInv(s);
    InvRun(s, steps, s');
  }

  /** pending_reinit is 1 exactly while a reinit thread exists or a callback is about to create
      one; so a callback whose compare-exchange fails has met one under way. */
  lemma PendingIffUnderWay(s: State, steps: seq<Step>, s': State)
    requires Init(s) && Run(s, steps, s')
    ensures s'.pending == (if ReinitUnderWay(s') then 1 else 0)
  {
    InitInv(s);
    InvRun(s, steps, s');
  }

  // ----- Reinitialising succeeds -----

  lemma {:induction false} Then(s: State, steps: seq<Step>, s1: State, step: Step)
    returns (steps': seq<Step>, s2: State)
    requires Run(s, steps, s1) && Enabled(s1, step)
    ensures Run(s, steps', s2) && s2 == Do(s1, step) && steps' == steps + [step]
    decreases |steps|
  {
    s2 := Do(s1, step);
    steps' := steps + [step];
    if steps != [] {
      var tail, _ := Then(Do(s, steps[0]), steps[1..], s1, step);
      assert steps'[1..] == tail;
    }
  }

  /** A callback that asks for a reinit while none is under way gets a thread for it; a callback
      that asks while one is gets none. */
  lemma CallbackGetsReinit(s: State, steps: seq<Step>, s': State, c: nat, r: nat)
    returns (steps': seq<Step>, t: State)
    requires Init(s) && Run(s, steps, s') && c in s'.callbacks && s'.callbacks[c].Entered? && r !in s'.reinits
    ensures Run(s, steps', t) && steps' == steps + [CallbackStep(c, r), CallbackStep(c, r)]
    ensures if ReinitUnderWay(s') then t.reinits == s'.reinits && c !in t.callbacks
            else t.reinits == map[r := Reinit(s'.generation, WantLock)] && t.callbacks == s'.callbacks[c := Leaving]
  {
    PendingIffUnderWay(s, steps, s');
    steps', t := Then(s, steps, s', CallbackStep(c, r));
    steps', t := Then(s, steps', t, CallbackStep(c, r));
  }

  /** A reinit thread that finds the slot in use closes the streams and opens them again; then it is
      gone, and nothing else has changed. */
  lemma ReinitReopens(s: State, steps: seq<Step>, s': State, r: nat) returns (steps': seq<Step>, t: State)
    requires Init(s) && Run(s, steps, s') && r in s'.reinits && s'.reinits[r].phase.WantLock?
    requires s'.mutex.Nobody? && s'.slot.IN_USE? && s'.callbacks == map[]
    ensures Run(s, steps', t)
    ensures var go := ReinitStep(r); steps' == steps + [go, go, go, ReinitOpens(r), go, go, go]
    ensures t == s'.(isOpen := true, pending := 0, reinits := map[])
  {
    InitInv(s);
    InvRun(s, steps, s');
    steps', t := BodyCloses(s, steps, s', r);
    assert t.reinits[r := Reinit(s'.generation, Clearing)] - {r} == map[];
    steps', t := ReopenedLeaves(s, steps', t, r);
  }

  lemma BodyCloses(s: State, steps: seq<Step>, s': State, r: nat) returns (steps': seq<Step>, t: State)
    requires Run(s, steps, s') && Inv(s') && r in s'.reinits && s'.reinits[r].phase.WantLock?
    requires s'.mutex.Nobody? && s'.slot.IN_USE? && s'.callbacks == map[]
    ensures Run(s, steps', t) && steps' == steps + [ReinitStep(r), ReinitStep(r), ReinitStep(r)]
    ensures t == s'.(isOpen := false, mutex := ByReinit(r), reinits := map[r := Reinit(s'.generation, Reopening)])
  {
    assert s'.reinits == map[r := Reinit(s'.generation, WantLock)];
    steps', t := Then(s, steps, s', ReinitStep(r));
    steps', t := Then(s, steps', t, ReinitStep(r));
    steps', t := Then(s, steps', t, ReinitStep(r));
  }

  lemma ReopenedLeaves(s: State, steps: seq<Step>, s1: State, r: nat) returns (steps': seq<Step>, t: State)
    requires Run(s, steps, s1) && s1.reinits == map[r := Reinit(s1.generation, Reopening)] && s1.mutex == ByReinit(r)
    ensures Run(s, steps', t)
    ensures steps' == steps + [ReinitOpens(r), ReinitStep(r), ReinitStep(r), ReinitStep(r)]
    ensures t == s1.(isOpen := true, pending := 0, mutex := Nobody, reinits := map[])
  {
    steps', t := Then(s, steps, s1, ReinitOpens(r));
    steps', t := Then(s, steps', t, ReinitStep(r));
    steps', t := Then(s, steps', t, ReinitStep(r));
    steps', t := Then(s, steps', t, ReinitStep(r));
  }

  // ----- Claiming succeeds -----

  /** A slot that is free can be claimed: a thread that meets no other gets it. */
  lemma LoneSeekerClaims(s: State, steps: seq<Step>, s': State, p: nat) returns (t: State)
    requires Init(s) && Run(s, steps, s') && s'.slot.FREE? && s'.mutex.Nobody? && p !in s'.seekers
    ensures Run(s', [Seek(p), SeekStep(p), SeekStep(p), SeekStep(p)], t)
    ensures t.slot.IN_USE? && t.owner.Claimed? && t.generation == s'.generation + 1 && t.seekers == s'.seekers
  {
    var s1 := Do(s', Seek(p));
    var s2 := Do(s1, SeekStep(p));
    var s3 := Do(s2, SeekStep(p));
    t := Do(s3, SeekStep(p));
    assert Run(s3, [SeekStep(p)], t);
    assert Run(s2, [SeekStep(p), SeekStep(p)], t);
    assert Run(s1, [SeekStep(p), SeekStep(p), SeekStep(p)], t);
  }

  /** And it is handed out, destroyed, and free again for the next generation. */
  lemma WholeLife(s: State, p: nat) returns (steps: seq<Step>, open: State, t: State)
    requires Init(s)
    ensures Run(s, steps, t) && t == s.(generation := s.generation + 1)
    ensures |steps| > 8 && Run(s, steps[..8], open) && open.owner.User? && open.isOpen && open.slot.IN_USE?
  {
    steps, open := HandedOut(s, p);
    var life;
    life, t := Then(s, steps, open, OwnerStep(true));
    life, t := Destroyed(s, life, t);
    assert life[..8] == steps;
    steps := life;
  }

  lemma HandedOut(s: State, p: nat) returns (steps: seq<Step>, open: State)
    requires Init(s)
    ensures Run(s, steps, open) && |steps| == 8
    ensures open == s.(slot := IN_USE, owner := User, isOpen := true, generation := s.generation + 1)
  {
    steps, open := Then(s, [], s, Seek(p));
    steps, open := Then(s, steps, open, SeekStep(p));
    steps, open := Then(s, steps, open, SeekStep(p));
    steps, open := Then(s, steps, open, SeekStep(p));
    steps, open := Then(s, steps, open, OwnerStep(true));
    steps, open := Then(s, steps, open, OwnerStep(true));
    steps, open := Then(s, steps, open, OwnerOpens);
    steps, open := Then(s, steps, open, OwnerStep(true));
  }

  /** If opening the streams fails the slot is not handed out: it is destroyed, and free again. */
  lemma FailedOpeningFrees(s: State, steps: seq<Step>, s': State) returns (steps': seq<Step>, t: State)
    requires Init(s) && Run(s, steps, s') && s'.owner.Opening?
    requires s'.callbacks == map[] && !ReinitUnderWay(s')
    ensures Run(s, steps', t) && |steps'| == |steps| + 7 && steps <= steps'
    ensures forall k | |steps| <= k < |steps'| :: steps'[k] == OwnerStep(k > |steps|)
    ensures t == s'.(mutex := Nobody, isOpen := false, slot := FREE, owner := NoOwner)
  {
    InitInv(s);
    InvRun(s, steps, s');
    steps', t := Then(s, steps, s', OwnerStep(false));
    steps', t := Destroyed(s, steps', t);
  }

  /** An undisturbed destroy. */
  lemma Destroyed(s: State, steps: seq<Step>, s1: State) returns (steps': seq<Step>, t: State)
    requires Run(s, steps, s1) && s1.owner.WantDestroy? && s1.mutex.Nobody? && s1.callbacks == map[] && s1.pending == 0
    ensures Run(s, steps', t)
    ensures var go := OwnerStep(true); steps' == steps + [go, go, go, go, go, go]
    ensures t == s1.(isOpen := false, slot := FREE, owner := NoOwner)
  {
    steps', t := DestroyMarks(s, steps, s1);
    steps', t := Then(s, steps', t, OwnerStep(true));
    steps', t := Then(s, steps', t, OwnerStep(true));
    steps', t := Then(s, steps', t, OwnerStep(true));
  }

  lemma DestroyMarks(s: State, steps: seq<Step>, s1: State) returns (steps': seq<Step>, t: State)
    requires Run(s, steps, s1) && s1.owner.WantDestroy? && s1.mutex.Nobody? && s1.callbacks == map[]
    ensures Run(s, steps', t) && steps' == steps + [OwnerStep(true), OwnerStep(true), OwnerStep(true)]
    ensures t == s1.(isOpen := false, slot := DESTROYING, owner := Marked, mutex := ByOwner)
  {
    steps', t := Then(s, steps, s1, OwnerStep(true));
    steps', t := Then(s, steps', t, OwnerStep(true));
    steps', t := Then(s, steps', t, OwnerStep(true));
  }

  // ----- Destroying succeeds -----

  /** The second phase of a destroy. */
  predicate Releasing(s: State) {
    s.owner.Marked? || s.owner.Polling? || s.owner.Freeing?
  }

  predicate Frees(s: State, step: Step) {
    s.owner.Freeing? && step.OwnerStep?
  }

  function OwnerRank(o: Owner): nat {
    match o
    case Marked => 3
    case Polling => 2
    case Freeing => 1
    case _ => 0
  }

  function PhaseRank(phase: Phase): nat {
    match phase
    case WantLock => 6
    case Check => 5
    case Body => 4
    case Reopening => 3
    case Unlocking => 2
    case Clearing => 1
  }

  ghost function ReinitRank(reinits: map<nat, Reinit>): nat {
    if reinits == map[] then 0
    else
      var r :| r in reinits;
      PhaseRank(reinits[r].phase)
  }

  /** A seeker moves at most twice more: to take the lock, and to find the slot taken. */
  function SeekRank(seekers: map<nat, Seeker>): nat {
    |seekers.Keys| + |WithoutLock(seekers)|
  }

  function WithoutLock(seekers: map<nat, Seeker>): set<nat> {
    set p | p in seekers && seekers[p].SawFree?
  }

  ghost function Rank(s: State): nat {
    OwnerRank(s.owner) + ReinitRank(s.reinits) + SeekRank(s.seekers)
  }

  lemma SeekerLeaves(seekers: map<nat, Seeker>, p: nat)
    requires p in seekers
    ensures SeekRank(seekers - {p}) < SeekRank(seekers)
  {
    assert (seekers - {p}).Keys == seekers.Keys - {p};
    assert WithoutLock(seekers - {p}) == WithoutLock(seekers) - {p};
    assert p in seekers.Keys;
  }

  lemma SeekerLocks(seekers: map<nat, Seeker>, p: nat)
    requires p in seekers && seekers[p].SawFree?
    ensures SeekRank(seekers[p := GotLock]) < SeekRank(seekers)
  {
    assert seekers[p := GotLock].Keys == seekers.Keys;
    assert WithoutLock(seekers[p := GotLock]) == WithoutLock(seekers) - {p};
    assert p in WithoutLock(seekers);
  }

  lemma ReinitRankIs(reinits: map<nat, Reinit>, r: nat)
    requires r in reinits && forall q | q in reinits :: q == r
    ensures ReinitRank(reinits) == PhaseRank(reinits[r].phase)
  {
  }

  lemma ReinitUsesRank(s: State, r: nat)
    requires Inv(s) && Releasing(s) && Enabled(s, ReinitStep(r))
    ensures ReinitRank(ReinitDo(s, r).reinits) < ReinitRank(s.reinits)
  {
    var s' := ReinitDo(s, r);
    ReinitRankIs(s.reinits, r);
    if s.reinits[r].phase.Clearing? {
      assert s'.reinits == map[];
    } else {
      ReinitRankIs(s'.reinits, r);
    }
  }

  /** While a slot is released every step that changes anything uses up rank. */
  lemma ReleasingUsesRank(s: State, step: Step)
    requires Inv(s) && Releasing(s) && Enabled(s, step) && !Frees(s, step) && Do(s, step) != s
    ensures Releasing(Do(s, step)) && Rank(Do(s, step)) < Rank(s)
  {
    match step
    case SeekStep(p) => SeekUsesRank(s, p);
    case OwnerStep(_) =>
    case ReinitStep(r) =>
      ReinitUsesRank(s, r);
      ReinitLeavesOthers(s, r);
    case _ =>
  }

  lemma SeekUsesRank(s: State, p: nat)
    requires Inv(s) && Releasing(s) && p in s.seekers
    ensures var t := SeekDo(s, p);
            t.owner == s.owner && t.reinits == s.reinits && SeekRank(t.seekers) < SeekRank(s.seekers)
  {
    if s.seekers[p].SawFree? && s.mutex.Nobody? {
      SeekerLocks(s.seekers, p);
    } else {
      SeekerLeaves(s.seekers, p);
    }
  }

  lemma ReinitLeavesOthers(s: State, r: nat)
    requires r in s.reinits
    ensures ReinitDo(s, r).owner == s.owner && ReinitDo(s, r).seekers == s.seekers
  {
  }

  /** And it is never stuck: the owner, the reinit thread, or a seeker that holds the lock can
      move, other than by polling in vain. */
  lemma ReleasingIsNotStuck(s: State) returns (step: Step)
    requires Inv(s) && Releasing(s)
    ensures Enabled(s, step) && Do(s, step) != s
  {
    step := OwnerStep(true);
    if s.owner.Polling? && s.pending == 1 {
      assert s.callbacks == map[];
      var r :| r in s.reinits;
      step := if s.mutex.ByInit? then SeekStep(s.mutex.p) else ReinitStep(r);
    }
  }

  ghost predicate EverFrees(s: State, steps: seq<Step>, s': State)
    requires Run(s, steps, s')
    decreases |steps|
  {
    steps != [] && (Frees(s, steps[0]) || EverFrees(Do(s, steps[0]), steps[1..], s'))
  }

  ghost function Changes(s: State, steps: seq<Step>, s': State): nat
    requires Run(s, steps, s')
    decreases |steps|
  {
    if steps == [] then 0
    else (if Do(s, steps[0]) == s then 0 else 1) + Changes(Do(s, steps[0]), steps[1..], s')
  }

  /** A destroy gets to FREE: once DESTROYING is stored, a run that has not stored FREE has made at
      most Rank steps other than polls in vain, and it can go on with such a step. */
  lemma {:induction false} DestroyReachesFree(s: State, steps: seq<Step>, s': State)
    requires Inv(s) && Releasing(s) && Run(s, steps, s') && !EverFrees(s, steps, s')
    ensures Changes(s, steps, s') + Rank(s') <= Rank(s)
    ensures Releasing(s') && exists step :: Enabled(s', step) && Do(s', step) != s'
    decreases |steps|
  {
    if steps == [] {
      var step := ReleasingIsNotStuck(s);
    } else {
      InvStep(s, steps[0]);
      if Do(s, steps[0]) != s {
        ReleasingUsesRank(s, steps[0]);
      }
      DestroyReachesFree(Do(s, steps[0]), steps[1..], s');
    }
  }
}
