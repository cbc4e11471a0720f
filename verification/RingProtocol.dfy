/** The ring buffer under concurrency: one producer and one consumer whose index loads and
    stores and single element copies interleave freely. */
module RingProtocol {
  import opened Arith
  import opened RingIndex

  /** Where the producer stands in `enqueue`, with its local copies of the indices. */
  datatype Producer<T> =
    | PIdle
    | PLoaded(src: seq<T>, wr: nat)
    | PCopying(src: seq<T>, wr: nat, rd: nat, n: nat, k: nat)

  /** Where the consumer stands in `dequeue`; `out` is what its caller's buffer holds. */
  datatype Consumer<T> =
    | CIdle
    | CLoaded(count: nat, discard: bool, rd: nat)
    | CCopying(discard: bool, rd: nat, wr: nat, n: nat, out: seq<T>)

  datatype State<T> = State(
    data: seq<T>,
    rd: nat,
    wr: nat,
    p: Producer<T>,
    c: Consumer<T>,
    accepted: seq<T>,        // all elements enqueue has reported as written, in order
    removed: seq<T>          // all elements dequeue has handed out or discarded, in order
  )

  datatype Step<T> =
    | EnqueueCall(elements: seq<T>)    // loads the write index
    | EnqueueStep
    | DequeueCall(max: nat, drop: bool) // loads the read index
    | DequeueStep

  ghost predicate Init<T>(s: State<T>) {
    && |s.data| > 0 && s.rd == 0 && s.wr == 0
    && s.p == PIdle && s.c == CIdle && s.accepted == [] && s.removed == []
  }

  predicate Sized<T>(s: State<T>) {
    && Index(|s.data|, s.rd) && Index(|s.data|, s.wr)
    && (s.p.PLoaded? ==> Index(|s.data|, s.p.wr))
    && (s.p.PCopying? ==> Index(|s.data|, s.p.wr) && s.p.k <= s.p.n <= |s.p.src| && s.p.n < |s.data|)
    && (s.c.CLoaded? ==> Index(|s.data|, s.c.rd))
    && (s.c.CCopying? ==> Index(|s.data|, s.c.rd) && |s.c.out| <= s.c.n < |s.data|
                          && s.c.n <= AvailableRead(|s.data|, s.rd, s.wr))
  }

  predicate Enabled<T>(s: State<T>, step: Step<T>) {
    match step
    case EnqueueCall(_) => s.p.PIdle?
    case EnqueueStep => !s.p.PIdle?
    case DequeueCall(_, _) => s.c.CIdle?
    case DequeueStep => !s.c.CIdle?
  }

  function EnqueueDo<T>(s: State<T>): State<T>
    requires Sized(s) && !s.p.PIdle?
  {
    match s.p
    case PIdle => s
    case PLoaded(src, wr) =>
      if Full(|s.data|, s.rd, wr) then s.(p := PIdle)
      else s.(p := PCopying(src, wr, s.rd, Min(AvailableWrite(|s.data|, s.rd, wr), |src|), 0))
    case PCopying(src, wr, rd, n, k) =>
      if k < n then
        s.(data := s.data[CopySlot(|s.data|, wr, n, k) := src[k]], p := s.p.(k := k + 1))
      else
        s.(wr := Increment(|s.data|, wr, n), p := PIdle, accepted := s.accepted + src[..n])
  }

  function DequeueDo<T>(s: State<T>): State<T>
    requires Sized(s) && !s.c.CIdle?
  {
    match s.c
    case CIdle => s
    case CLoaded(count, discard, rd) =>
      if Empty(rd, s.wr) then s.(c := CIdle)
      else s.(c := CCopying(discard, rd, s.wr, Min(AvailableRead(|s.data|, rd, s.wr), count), []))
    case CCopying(discard, rd, wr, n, out) =>
      if |out| < n && !discard then
        s.(c := s.c.(out := out + [s.data[CopySlot(|s.data|, rd, n, |out|)]]))
      else
        s.(rd := Increment(|s.data|, rd, n), c := CIdle,
           removed := s.removed + (if discard then Window(s.data, s.rd, s.wr)[..n] else out))
  }

  function Do<T>(s: State<T>, step: Step<T>): State<T>
    requires Sized(s) && Enabled(s, step)
  {
    match step
    case EnqueueCall(src) => s.(p := PLoaded(src, s.wr))
    case EnqueueStep => EnqueueDo(s)
    case DequeueCall(count, discard) => s.(c := CLoaded(count, discard, s.rd))
    case DequeueStep => DequeueDo(s)
  }

  // ----- The inductive invariant -----

  /** The producer's own write index is current; what it believes writable really is. */
  ghost predicate ProducerInv<T>(s: State<T>)
    requires Sized(s)
  {
    match s.p
    case PIdle => true
    case PLoaded(_, wr) => wr == s.wr
    case PCopying(src, wr, rd, n, k) =>
      && wr == s.wr && Index(|s.data|, rd)
      && AvailableWrite(|s.data|, rd, wr) <= AvailableWrite(|s.data|, s.rd, s.wr)
      && n == Min(AvailableWrite(|s.data|, rd, wr), |src|)
      && forall j | 0 <= j < k :: s.data[Increment(|s.data|, wr, j)] == src[j]
  }

  /** The consumer's own read index is current; what it believes readable really is. */
  ghost predicate ConsumerInv<T>(s: State<T>)
    requires Sized(s)
  {
    match s.c
    case CIdle => true
    case CLoaded(_, _, rd) => rd == s.rd
    case CCopying(_, rd, wr, n, out) =>
      && rd == s.rd && Index(|s.data|, wr)
      && n <= AvailableRead(|s.data|, rd, wr) <= AvailableRead(|s.data|, s.rd, s.wr)
      && out == Window(s.data, s.rd, s.wr)[..|out|]
  }

  ghost predicate Inv<T>(s: State<T>) {
    && Sized(s) && ProducerInv(s) && ConsumerInv(s)
    && s.accepted == s.removed + Window(s.data, s.rd, s.wr)
  }

  lemma EnqueueCopyInv<T>(s: State<T>)
    requires Inv(s) && s.p.PCopying? && s.p.k < s.p.n
    ensures Inv(EnqueueDo(s))
  {
    WindowFrame(s.data, s.rd, s.wr, s.p.k, s.p.src[s.p.k]);
  }

  lemma EnqueuePublishInv<T>(s: State<T>)
    requires Inv(s) && s.p.PCopying? && s.p.k == s.p.n
    ensures Inv(EnqueueDo(s))
  {
    var s' := EnqueueDo(s);
    var src := s.p.src[..s.p.n];
    WindowEnqueue(s.data, s.rd, s.wr, src);
    EnqueueFills(|s.data|, s.rd, s.wr, |src|);
    AppendTo(s.removed, Window(s.data, s.rd, s.wr), src);
    assert s'.accepted == s'.removed + Window(s'.data, s'.rd, s'.wr);
    ConsumerSeesMore(s, s', src);
  }

  lemma AppendTo<T>(before: seq<T>, w: seq<T>, src: seq<T>)
    ensures before + (w + src) == (before + w) + src
  {
  }

  /** What is appended behind the readable elements leaves the consumer's view right. */
  lemma ConsumerSeesMore<T>(s: State<T>, s': State<T>, src: seq<T>)
    requires Sized(s) && ConsumerInv(s) && Sized(s') && s'.c == s.c && s'.rd == s.rd && |s'.data| == |s.data|
    requires AvailableRead(|s.data|, s.rd, s.wr) <= AvailableRead(|s.data|, s.rd, s'.wr)
    requires Window(s'.data, s'.rd, s'.wr) == Window(s.data, s.rd, s.wr) + src
    ensures ConsumerInv(s')
  {
    if s.c.CCopying? {
      var w, k := Window(s.data, s.rd, s.wr), |s.c.out|;
      assert (w + src)[..k] == w[..k];
    }
  }

  lemma EnqueueInv<T>(s: State<T>)
    requires Inv(s) && !s.p.PIdle?
    ensures Inv(EnqueueDo(s))
  {
    if s.p.PLoaded? {
      FullIsExact(|s.data|, s.rd, s.wr);
    } else if s.p.k < s.p.n {
      EnqueueCopyInv(s);
    } else {
      EnqueuePublishInv(s);
    }
  }

  lemma DequeueCopyInv<T>(s: State<T>)
    requires Inv(s) && s.c.CCopying? && |s.c.out| < s.c.n && !s.c.discard
    ensures Inv(DequeueDo(s))
  {
    var w, k := Window(s.data, s.rd, s.wr), |s.c.out|;
    assert w[..k + 1] == w[..k] + [w[k]];
  }

  lemma DequeuePublishInv<T>(s: State<T>)
    requires Inv(s) && s.c.CCopying? && (|s.c.out| == s.c.n || s.c.discard)
    ensures Inv(DequeueDo(s))
  {
    var s' := DequeueDo(s);
    var w, n := Window(s.data, s.rd, s.wr), s.c.n;
    DequeueFrees(|s.data|, s.rd, s.wr, n);
    WindowDequeue(s.data, s.rd, s.wr, n);
    SplitAt(s.removed, w, n);
    assert s'.removed == s.removed + w[..n];
  }

  lemma SplitAt<T>(before: seq<T>, w: seq<T>, n: nat)
    requires n <= |w|
    ensures before + w == (before + w[..n]) + w[n..]
  {
  }

  lemma DequeueFrees(cap: nat, rd: nat, wr: nat, n: nat)
    requires Index(cap, rd) && Index(cap, wr) && n <= AvailableRead(cap, rd, wr)
    ensures AvailableRead(cap, Increment(cap, rd, n), wr) == AvailableRead(cap, rd, wr) - n
  {
  }

  lemma EnqueueFills(cap: nat, rd: nat, wr: nat, n: nat)
    requires Index(cap, rd) && Index(cap, wr) && n <= AvailableWrite(cap, rd, wr)
    ensures AvailableRead(cap, rd, Increment(cap, wr, n)) == AvailableRead(cap, rd, wr) + n
  {
  }

  lemma DequeueInv<T>(s: State<T>)
    requires Inv(s) && !s.c.CIdle?
    ensures Inv(DequeueDo(s))
  {
    if s.c.CCopying? {
      if |s.c.out| < s.c.n && !s.c.discard {
        DequeueCopyInv(s);
      } else {
        DequeuePublishInv(s);
      }
    }
  }

  lemma InvStep<T>(s: State<T>, step: Step<T>)
    requires Inv(s) && Enabled(s, step)
    ensures Inv(Do(s, step))
  {
    match step
    case EnqueueCall(_) =>
    case EnqueueStep => EnqueueInv(s);
    case DequeueCall(_, _) =>
    case DequeueStep => DequeueInv(s);
  }

  // ----- Runs -----

  /** s' is reached from s by interleaving the two threads' steps as listed. */
  ghost predicate Run<T>(s: State<T>, steps: seq<Step<T>>, s': State<T>)
    decreases |steps|
  {
    if steps == [] then s' == s
    else Sized(s) && Enabled(s, steps[0]) && Run(Do(s, steps[0]), steps[1..], s')
  }

  lemma {:induction false} InvRun<T>(s: State<T>, steps: seq<Step<T>>, s': State<T>)
    requires Inv(s) && Run(s, steps, s')
    ensures Inv(s') && |s'.data| == |s.data|
    decreases |steps|
  {
    if steps != [] {
      InvStep(s, steps[0]);
      InvRun(Do(s, steps[0]), steps[1..], s');
    }
  }

  /** The ring is a bounded FIFO: at every state of every run, what has been dequeued and what
      is in flight make up, in order, exactly what has been accepted; the capacity bounds it. */
  lemma LinearisesToFifo<T>(s: State<T>, steps: seq<Step<T>>, s': State<T>)
    requires Init(s) && Run(s, steps, s')
    ensures Sized(s')
    ensures s'.accepted == s'.removed + Window(s'.data, s'.rd, s'.wr)
    ensures s'.removed <= s'.accepted
    ensures |s'.accepted| - |s'.removed| <= |s.data| - 1
  {
    InvRun(s, steps, s');
  }

  /** A stale opposite index only under-estimates, and the slots one side is copying are
      never slots the other side is copying, whatever the interleaving. */
  lemma CopiesAreDisjoint<T>(s: State<T>, steps: seq<Step<T>>, s': State<T>, k: nat, j: nat)
    requires Init(s) && Run(s, steps, s')
    requires s'.p.PCopying? && s'.c.CCopying? && k < s'.p.n && j < s'.c.n
    ensures Sized(s') && Index(|s'.data|, s'.p.rd) && Index(|s'.data|, s'.c.wr)
    ensures AvailableWrite(|s'.data|, s'.p.rd, s'.p.wr) <= AvailableWrite(|s'.data|, s'.rd, s'.wr)
    ensures AvailableRead(|s'.data|, s'.c.rd, s'.c.wr) <= AvailableRead(|s'.data|, s'.rd, s'.wr)
    ensures CopySlot(|s'.data|, s'.p.wr, s'.p.n, k) != CopySlot(|s'.data|, s'.c.rd, s'.c.n, j)
  {
    InvRun(s, steps, s');
    SlotsDisjoint(|s'.data|, s'.rd, s'.wr, k, j);
  }

  // ----- A call takes all it can -----

  predicate NoEnqueueCall<T>(steps: seq<Step<T>>) {
    forall k | 0 <= k < |steps| :: !steps[k].EnqueueCall?
  }

  predicate NoDequeueCall<T>(steps: seq<Step<T>>) {
    forall k | 0 <= k < |steps| :: !steps[k].DequeueCall?
  }

  function EnqueueMoves<T>(steps: seq<Step<T>>): nat {
    if steps == [] then 0 else (if steps[0].EnqueueStep? then 1 else 0) + EnqueueMoves(steps[1..])
  }

  function DequeueMoves<T>(steps: seq<Step<T>>): nat {
    if steps == [] then 0 else (if steps[0].DequeueStep? then 1 else 0) + DequeueMoves(steps[1..])
  }

  /** Inside one enqueue of n elements of src, or behind it; `before` was accepted earlier. */
  ghost predicate Enqueues<T>(s: State<T>, src: seq<T>, n: nat, before: seq<T>)
    requires n <= |src|
  {
    if s.p.PIdle? then s.accepted == before + src[..n]
    else s.p.PCopying? && s.p.src == src && s.p.n == n && s.accepted == before
  }

  lemma EnqueuesStep<T>(s: State<T>, step: Step<T>, src: seq<T>, n: nat, before: seq<T>)
    requires Inv(s) && Enabled(s, step) && !step.EnqueueCall? && n <= |src| && Enqueues(s, src, n, before)
    ensures Enqueues(Do(s, step), src, n, before)
    ensures Do(s, step).p.PCopying? ==>
              s.p.PCopying? && Do(s, step).p.k == s.p.k + (if step.EnqueueStep? then 1 else 0)
  {
  }

  lemma {:induction false} EnqueuesRun<T>(s: State<T>, steps: seq<Step<T>>, s': State<T>, src: seq<T>, n: nat, before: seq<T>)
    requires Inv(s) && Run(s, steps, s') && NoEnqueueCall(steps) && n <= |src| && Enqueues(s, src, n, before)
    ensures Enqueues(s', src, n, before)
    ensures s'.p.PCopying? ==> s.p.PCopying? && s'.p.k == s.p.k + EnqueueMoves(steps)
    decreases |steps|
  {
    if steps != [] {
      InvStep(s, steps[0]);
      EnqueuesStep(s, steps[0], src, n, before);
      EnqueuesRun(Do(s, steps[0]), steps[1..], s', src, n, before);
    }
  }

  lemma EnqueueLoads<T>(s: State<T>)
    requires Inv(s) && s.p.PLoaded?
    ensures var n := Min(AvailableWrite(|s.data|, s.rd, s.wr), |s.p.src|);
            Enqueues(EnqueueDo(s), s.p.src, n, s.accepted)
            && (EnqueueDo(s).p.PCopying? ==> EnqueueDo(s).p.k == 0)
  {
    FullIsExact(|s.data|, s.rd, s.wr);
    assert s.accepted + s.p.src[..0] == s.accepted;
  }

  /** An enqueue takes what was free when it loaded the read index, and no less of what it is
      offered: from that load on, whatever the consumer does meanwhile, it accepts exactly that
      much, and after one move more than that it is done. */
  lemma EnqueueTakesWhatFits<T>(s0: State<T>, steps: seq<Step<T>>, s: State<T>, more: seq<Step<T>>, s': State<T>)
    requires Init(s0) && Run(s0, steps, s) && s.p.PLoaded?
    requires Sized(s) && Run(EnqueueDo(s), more, s') && NoEnqueueCall(more)
    ensures |s.removed| <= |s.accepted| < |s.removed| + |s.data|
    ensures var free := |s.data| - 1 - (|s.accepted| - |s.removed|);
            var n := if |s.p.src| < free then |s.p.src| else free;
            && s'.accepted == (if s'.p.PIdle? then s.accepted + s.p.src[..n] else s.accepted)
            && (EnqueueMoves(more) > n ==> s'.p.PIdle?)
  {
    InvRun(s0, steps, s);
    InvStep(s, EnqueueStep);
    var n := Min(AvailableWrite(|s.data|, s.rd, s.wr), |s.p.src|);
    EnqueueLoads(s);
    EnqueuesRun(EnqueueDo(s), more, s', s.p.src, n, s.accepted);
    InvRun(EnqueueDo(s), more, s');
  }

  /** Inside one dequeue of n elements, or behind it; `before` was removed earlier. */
  ghost predicate Dequeues<T>(s: State<T>, n: nat, before: seq<T>, oldest: seq<T>)
    requires n <= |oldest| && Sized(s)
  {
    if s.c.CIdle? then s.removed == before + oldest[..n]
    else s.c.CCopying? && s.c.n == n && s.removed == before && oldest <= Window(s.data, s.rd, s.wr)
  }

  lemma DequeuesStep<T>(s: State<T>, step: Step<T>, n: nat, before: seq<T>, oldest: seq<T>)
    requires Inv(s) && Enabled(s, step) && !step.DequeueCall? && n <= |oldest| && Dequeues(s, n, before, oldest)
    ensures Sized(Do(s, step)) && Dequeues(Do(s, step), n, before, oldest)
    ensures Do(s, step).c.CCopying? ==>
              s.c.CCopying? && |Do(s, step).c.out| == |s.c.out| + (if step.DequeueStep? then 1 else 0)
  {
    InvStep(s, step);
    if step == EnqueueStep && s.p.PCopying? {
      WindowOnlyGrows(s);
    }
    if step == DequeueStep && s.c.CCopying? {
      var w := Window(s.data, s.rd, s.wr);
      assert w[..n] == oldest[..n];
    }
  }

  lemma WindowOnlyGrows<T>(s: State<T>)
    requires Inv(s) && s.p.PCopying?
    ensures Sized(EnqueueDo(s)) && EnqueueDo(s).rd == s.rd
    ensures Window(s.data, s.rd, s.wr) <= Window(EnqueueDo(s).data, s.rd, EnqueueDo(s).wr)
  {
    if s.p.k < s.p.n {
      WindowFrame(s.data, s.rd, s.wr, s.p.k, s.p.src[s.p.k]);
    } else {
      WindowEnqueue(s.data, s.rd, s.wr, s.p.src[..s.p.n]);
      EnqueueInv(s);
    }
  }

  lemma {:induction false} DequeuesRun<T>(s: State<T>, steps: seq<Step<T>>, s': State<T>, n: nat, before: seq<T>, oldest: seq<T>)
    requires Inv(s) && Run(s, steps, s') && NoDequeueCall(steps) && n <= |oldest| && Dequeues(s, n, before, oldest)
    ensures Inv(s') && Dequeues(s', n, before, oldest)
    ensures s'.c.CCopying? ==> s.c.CCopying? && |s'.c.out| == |s.c.out| + DequeueMoves(steps)
    decreases |steps|
  {
    if steps != [] {
      InvStep(s, steps[0]);
      DequeuesStep(s, steps[0], n, before, oldest);
      DequeuesRun(Do(s, steps[0]), steps[1..], s', n, before, oldest);
    }
  }

  lemma DequeueLoads<T>(s: State<T>)
    requires Inv(s) && s.c.CLoaded?
    ensures Sized(DequeueDo(s))
    ensures var w := Window(s.data, s.rd, s.wr);
            Dequeues(DequeueDo(s), Min(|w|, s.c.count), s.removed, w)
            && (DequeueDo(s).c.CCopying? ==> DequeueDo(s).c.out == [])
  {
    assert s.removed + Window(s.data, s.rd, s.wr)[..0] == s.removed;
  }

  /** A dequeue likewise: it removes exactly the oldest elements that were readable when it loaded
      the write index, as many as were wanted, and after one move more than that it is done. */
  lemma DequeueTakesWhatIsThere<T>(s0: State<T>, steps: seq<Step<T>>, s: State<T>, more: seq<Step<T>>, s': State<T>)
    requires Init(s0) && Run(s0, steps, s) && s.c.CLoaded?
    requires Sized(s) && Run(DequeueDo(s), more, s') && NoDequeueCall(more)
    ensures s.removed <= s.accepted
    ensures var oldest := s.accepted[|s.removed|..];
            var n := if s.c.count < |oldest| then s.c.count else |oldest|;
            && s'.removed == (if s'.c.CIdle? then s.removed + oldest[..n] else s.removed)
            && (DequeueMoves(more) > n ==> s'.c.CIdle?)
  {
    InvRun(s0, steps, s);
    InvStep(s, DequeueStep);
    var w := Window(s.data, s.rd, s.wr);
    var n := Min(|w|, s.c.count);
    assert s.accepted[|s.removed|..] == w;
    DequeueLoads(s);
    DequeuesRun(DequeueDo(s), more, s', n, s.removed, w);
  }

  // ----- Whole frames -----

  /** What the frame adapter passes down: sample counts of whole frames. */
  predicate WholeCall<T>(step: Step<T>, channels: nat)
    requires channels > 0
  {
    match step
    case EnqueueCall(src) => Whole(|src|, channels)
    case DequeueCall(count, _) => Whole(count, channels)
    case _ => true
  }

  predicate ProducerWhole<T>(p: Producer<T>, channels: nat)
    requires channels > 0
  {
    match p
    case PIdle => true
    case PLoaded(src, _) => Whole(|src|, channels)
    case PCopying(src, _, _, n, _) => Whole(n, channels)
  }

  predicate ConsumerWhole<T>(c: Consumer<T>, channels: nat)
    requires channels > 0
  {
    match c
    case CIdle => true
    case CLoaded(count, _, _) => Whole(count, channels)
    case CCopying(_, _, _, n, _) => Whole(n, channels)
  }

  predicate FrameInv<T>(s: State<T>, channels: nat)
    requires channels > 0 && Sized(s)
  {
    && Whole(|s.data| - 1, channels)
    && Whole(AvailableRead(|s.data|, s.rd, s.wr), channels)
    && Whole(|s.removed|, channels)
    && ProducerWhole(s.p, channels) && ConsumerWhole(s.c, channels)
  }

  /** What is free, what is used, and the smaller of either and a whole count are whole. */
  lemma WholeParts(cap: nat, rd: nat, wr: nat, count: nat, channels: nat)
    requires channels > 0 && Index(cap, rd) && Index(cap, wr)
    requires Whole(cap - 1, channels) && Whole(count, channels)
    requires Whole(AvailableRead(cap, rd, wr), channels)
    ensures Whole(AvailableWrite(cap, rd, wr), channels)
    ensures Whole(Min(AvailableWrite(cap, rd, wr), count), channels)
    ensures Whole(Min(AvailableRead(cap, rd, wr), count), channels)
  {
    WholeArithmetic(cap - 1, AvailableRead(cap, rd, wr), channels);
  }

  lemma EnqueueFrames<T>(s: State<T>, channels: nat)
    requires channels > 0 && Inv(s) && FrameInv(s, channels) && !s.p.PIdle?
    ensures Sized(EnqueueDo(s)) && FrameInv(EnqueueDo(s), channels)
  {
    EnqueueInv(s);
    match s.p
    case PLoaded(src, wr) =>
      WholeParts(|s.data|, s.rd, s.wr, |src|, channels);
    case PCopying(src, wr, rd, n, k) =>
      if k == n {
        EnqueueFills(|s.data|, s.rd, s.wr, n);
        WholeArithmetic(AvailableRead(|s.data|, s.rd, s.wr), n, channels);
      }
  }

  lemma DequeueFrames<T>(s: State<T>, channels: nat)
    requires channels > 0 && Inv(s) && FrameInv(s, channels) && !s.c.CIdle?
    ensures Sized(DequeueDo(s)) && FrameInv(DequeueDo(s), channels)
  {
    DequeueInv(s);
    match s.c
    case CLoaded(count, _, rd) =>
      WholeParts(|s.data|, s.rd, s.wr, count, channels);
    case CCopying(discard, rd, wr, n, out) =>
      if |out| == n || discard {
        DequeueFrees(|s.data|, s.rd, s.wr, n);
        WholeArithmetic(AvailableRead(|s.data|, s.rd, s.wr), n, channels);
        WholeArithmetic(|s.removed|, n, channels);
        assert |DequeueDo(s).removed| == |s.removed| + n;
      }
  }

  lemma FrameStep<T>(s: State<T>, step: Step<T>, channels: nat)
    requires channels > 0 && Inv(s) && FrameInv(s, channels) && Enabled(s, step) && WholeCall(step, channels)
    ensures Inv(Do(s, step)) && FrameInv(Do(s, step), channels)
  {
    InvStep(s, step);
    match step
    case EnqueueCall(_) =>
    case EnqueueStep => EnqueueFrames(s, channels);
    case DequeueCall(_, _) =>
    case DequeueStep => DequeueFrames(s, channels);
  }

  lemma {:induction false} FrameRun<T>(s: State<T>, steps: seq<Step<T>>, s': State<T>, channels: nat)
    requires channels > 0 && Inv(s) && FrameInv(s, channels) && Run(s, steps, s')
    requires forall k | 0 <= k < |steps| :: WholeCall(steps[k], channels)
    ensures Inv(s') && FrameInv(s', channels)
    decreases |steps|
  {
    if steps != [] {
      FrameStep(s, steps[0], channels);
      FrameRun(Do(s, steps[0]), steps[1..], s', channels);
    }
  }

  /** In a ring made for whole frames no interleaving of whole-frame calls splits a frame: free,
      used and transferred sample counts are multiples of the channel count at every state of
      every run, so converting them to frames is exact. */
  lemma FramesStayWhole<T>(s: State<T>, steps: seq<Step<T>>, s': State<T>, channels: nat)
    requires channels > 0 && Init(s) && Whole(|s.data| - 1, channels) && Run(s, steps, s')
    requires forall k | 0 <= k < |steps| :: WholeCall(steps[k], channels)
    ensures Sized(s') && FrameInv(s', channels)
    ensures Whole(AvailableWrite(|s'.data|, s'.rd, s'.wr), channels)
    ensures Whole(|s'.accepted|, channels) && Whole(|s'.removed|, channels)
  {
    assert Whole(0, channels);
    FrameRun(s, steps, s', channels);
    var used := AvailableRead(|s'.data|, s'.rd, s'.wr);
    WholeParts(|s'.data|, s'.rd, s'.wr, 0, channels);
    WholeArithmetic(|s'.removed|, used, channels);
  }
}
