/** The triple buffer under concurrency: one producer and one consumer; the load and the
    exchanges of the shared byte and every word of a multi-word value are single steps. */
module TripleProtocol {
  import opened TripleBuffers

  datatype Producer<W> =
    | PIdle
    | PWriting(v: seq<W>, k: nat)     // k words of v are in the input slot
    | PPublish(v: seq<W>)             // about to exchange the shared byte

  datatype Consumer<W> =
    | CIdle
    | CExchange                       // saw the dirty bit
    | CReading(out: seq<W>)           // copies the output slot word by word

  datatype State<W> = State(
    width: nat,                       // words per value
    storage: seq<seq<W>>,
    shared: bv8,
    input: bv8,
    output: bv8,
    p: Producer<W>,
    c: Consumer<W>,
    initial: seq<W>,                  // what the output slot held at the start
    pubs: seq<seq<W>>,                // publications, in order
    overwrote: seq<bool>,             // what each `write` returned
    taken: seq<int>                   // publication numbers of the updating reads
  )

  datatype Step<W> = WriteCall(v: seq<W>) | WriteStep | ReadCall | ReadStep

  /** The start: as constructed, or as `invalidate` leaves it; the slots may hold anything. */
  ghost predicate Init<W>(s: State<W>) {
    && |s.storage| == 3 && (forall i | 0 <= i < 3 :: |s.storage[i]| == s.width)
    && s.shared == 0
    && ((s.output == 1 && s.input == 2) || (s.input == 1 && s.output == 2))
    && s.p == PIdle && s.c == CIdle
    && s.initial == s.storage[s.output as int]
    && s.pubs == [] && s.overwrote == [] && s.taken == []
  }

  predicate Shaped<W>(s: State<W>) {
    && |s.storage| == 3 && (forall i | 0 <= i < 3 :: |s.storage[i]| == s.width)
    && Slot(s.input) && Slot(s.output)
    && (s.p.PWriting? ==> |s.p.v| == s.width && s.p.k <= s.width)
    && (s.c.CReading? ==> |s.c.out| <= s.width)
  }

  predicate Enabled<W>(s: State<W>, step: Step<W>) {
    match step
    case WriteCall(v) => s.p.PIdle? && |v| == s.width
    case WriteStep => !s.p.PIdle?
    case ReadCall => s.c.CIdle?
    case ReadStep => !s.c.CIdle?
  }

  function WriteDo<W>(s: State<W>): State<W>
    requires Shaped(s) && !s.p.PIdle?
  {
    match s.p
    case PIdle => s
    case PWriting(v, k) =>
      if k < s.width then
        var slot := s.storage[s.input as int][k := v[k]];
        s.(storage := s.storage[s.input as int := slot], p := PWriting(v, k + 1))
      else s.(p := PPublish(v))
    case PPublish(v) =>
      s.(shared := s.input | BACK_DIRTY_BIT, input := BackIndex(s.shared), p := PIdle,
         pubs := s.pubs + [v], overwrote := s.overwrote + [Dirty(s.shared)])
  }

  function ReadDo<W>(s: State<W>): State<W>
    requires Shaped(s) && !s.c.CIdle?
  {
    match s.c
    case CIdle => s
    case CExchange =>
      s.(shared := s.output, output := BackIndex(s.shared), c := CReading([]),
         taken := s.taken + [|s.pubs| - 1])
    case CReading(out) =>
      if |out| < s.width then
        s.(c := CReading(out + [s.storage[s.output as int][|out|]]))
      else s.(c := CIdle)
  }

  function Do<W>(s: State<W>, step: Step<W>): State<W>
    requires Shaped(s) && Enabled(s, step)
  {
    match step
    case WriteCall(v) => s.(p := PWriting(v, 0))
    case WriteStep => WriteDo(s)
    case ReadCall => s.(c := if Dirty(s.shared) then CExchange else CReading([]))
    case ReadStep => ReadDo(s)
  }

  /** The newest publication taken so far, or -1. */
  function LastTaken<W>(s: State<W>): int {
    if s.taken == [] then -1 else s.taken[|s.taken| - 1]
  }

  // ----- The inductive invariant -----

  ghost predicate IndexInv<W>(s: State<W>) {
    && Permutation(s.input, s.output, BackIndex(s.shared))
    && (s.shared == BackIndex(s.shared) || s.shared == BackIndex(s.shared) | BACK_DIRTY_BIT)
    && (s.c.CExchange? ==> Dirty(s.shared))
  }

  ghost predicate ValueInv<W>(s: State<W>)
    requires Shaped(s) && IndexInv(s)
  {
    && -1 <= LastTaken(s) < |s.pubs| && (s.taken != [] ==> 0 <= LastTaken(s))
    && (Dirty(s.shared) <==> LastTaken(s) < |s.pubs| - 1)
    && (Dirty(s.shared) ==> s.storage[BackIndex(s.shared) as int] == s.pubs[|s.pubs| - 1])
    && s.storage[s.output as int] == (if s.taken == [] then s.initial else s.pubs[LastTaken(s)])
    && (s.p.PWriting? ==> s.storage[s.input as int][..s.p.k] == s.p.v[..s.p.k])
    && (s.p.PPublish? ==> s.storage[s.input as int] == s.p.v)
    && (s.c.CReading? ==> s.c.out == s.storage[s.output as int][..|s.c.out|])
  }

  ghost predicate Increasing(t: seq<int>) {
    forall i, j | 0 <= i < j < |t| :: t[i] < t[j]
  }

  ghost predicate LogInv<W>(s: State<W>) {
    && -1 <= LastTaken(s) < |s.pubs|
    && (s.taken != [] ==> 0 <= LastTaken(s))
    && Increasing(s.taken)
    && |s.overwrote| == |s.pubs|
    && forall k | 0 <= k < |s.pubs| :: s.overwrote[k] <==> k > 0 && k - 1 !in s.taken
  }

  ghost predicate Inv<W>(s: State<W>) {
    Shaped(s) && IndexInv(s) && ValueInv(s) && LogInv(s)
  }

  lemma WriteInv<W>(s: State<W>)
    requires Inv(s) && !s.p.PIdle?
    ensures Inv(WriteDo(s))
  {
    match s.p
    case PWriting(v, k) =>
      if k < s.width {
        WriteWordInv(s);
      } else {
        assert s.storage[s.input as int][..k] == s.storage[s.input as int] && v[..k] == v;
      }
    case PPublish(v) => PublishInv(s);
  }

  lemma WriteWordInv<W>(s: State<W>)
    requires Inv(s) && s.p.PWriting? && s.p.k < s.width
    ensures Inv(WriteDo(s))
  {
    var k := s.p.k;
    var slot := s.storage[s.input as int][k := s.p.v[k]];
    assert slot[..k + 1] == s.storage[s.input as int][..k] + [s.p.v[k]];
    assert s.p.v[..k + 1] == s.p.v[..k] + [s.p.v[k]];
  }

  lemma PublishInv<W>(s: State<W>)
    requires Inv(s) && s.p.PPublish?
    ensures Inv(WriteDo(s))
  {
    var s' := WriteDo(s);
    PackingIsExact(s.input);
    PackingIsExact(BackIndex(s.shared));
    var n := |s.pubs|;
    assert s'.overwrote[n] <==> n > 0 && n - 1 !in s.taken by {
      TakenUpToLast(s, n - 1);
    }
  }

  lemma ReadInv<W>(s: State<W>)
    requires Inv(s) && !s.c.CIdle?
    ensures Inv(ReadDo(s))
  {
    if s.c.CExchange? {
      TakeInv(s);
    } else if |s.c.out| < s.width {
      ReadWordInv(s);
    } else {
      ReadDoneInv(s);
    }
  }

  lemma ReadWordInv<W>(s: State<W>)
    requires Inv(s) && !s.c.CIdle? && !s.c.CExchange? && |s.c.out| < s.width
    ensures Inv(ReadDo(s))
  {
    var slot, k := s.storage[s.output as int], |s.c.out|;
    assert slot[..k + 1] == slot[..k] + [slot[k]];
  }

  lemma ReadDoneInv<W>(s: State<W>)
    requires Inv(s) && !s.c.CIdle? && !s.c.CExchange? && |s.c.out| >= s.width
    ensures Inv(ReadDo(s))
  {
  }

  lemma TakeInv<W>(s: State<W>)
    requires Inv(s) && s.c.CExchange?
    ensures Inv(ReadDo(s))
  {
    var s' := ReadDo(s);
    PackingIsExact(s.output);
    PackingIsExact(BackIndex(s.shared));
    var n := |s.pubs| - 1;
    forall i, j | 0 <= i < j < |s'.taken|
      ensures s'.taken[i] < s'.taken[j]
    {
      if j == |s.taken| {
        TakenUpToLast(s, s.taken[i]);
      }
    }
    forall k | k < n
      ensures k in s'.taken <==> k in s.taken
    {
      assert s'.taken == s.taken + [n];
    }
  }

  lemma TakenUpToLast<W>(s: State<W>, n: int)
    requires Increasing(s.taken)
    ensures n in s.taken ==> n <= LastTaken(s)
    ensures s.taken != [] ==> LastTaken(s) in s.taken
  {
    if n in s.taken {
      var i :| 0 <= i < |s.taken| && s.taken[i] == n;
    }
  }

  lemma InvStep<W>(s: State<W>, step: Step<W>)
    requires Inv(s) && Enabled(s, step)
    ensures Inv(Do(s, step))
  {
    match step
    case WriteCall(v) =>
    case WriteStep => WriteInv(s);
    case ReadCall =>
    case ReadStep => ReadInv(s);
  }

  lemma InitInv<W>(s: State<W>)
    requires Init(s)
    ensures Inv(s)
  {
    PackingIsExact(0);
  }

  // ----- Runs -----

  ghost predicate Run<W>(s: State<W>, steps: seq<Step<W>>, s': State<W>)
    decreases |steps|
  {
    if steps == [] then s' == s
    else Shaped(s) && Enabled(s, steps[0]) && Run(Do(s, steps[0]), steps[1..], s')
  }

  lemma {:induction false} InvRun<W>(s: State<W>, steps: seq<Step<W>>, s': State<W>)
    requires Inv(s) && Run(s, steps, s')
    ensures Inv(s')
    decreases |steps|
  {
    if steps != [] {
      InvStep(s, steps[0]);
      InvRun(Do(s, steps[0]), steps[1..], s');
    }
  }

  /** In every reachable state the three indices are a permutation, so the slot being written
      is never the slot being read. */
  lemma SlotsNeverShared<W>(s: State<W>, steps: seq<Step<W>>, s': State<W>)
    requires Init(s) && Run(s, steps, s')
    ensures Permutation(s'.input, s'.output, BackIndex(s'.shared))
  {
    InitInv(s);
    InvRun(s, steps, s');
  }

  /** A read that has copied its last word holds one whole publication, the newest taken, or
      the initial value: never a mixture, however the word copies interleave. */
  lemma ReadsAreNotTorn<W>(s: State<W>, steps: seq<Step<W>>, s': State<W>)
    requires Init(s) && Run(s, steps, s')
    requires s'.c.CReading? && |s'.c.out| == s'.width
    ensures -1 <= LastTaken(s') < |s'.pubs| && (s'.taken != [] ==> 0 <= LastTaken(s'))
    ensures s'.c.out == if s'.taken == [] then s'.initial else s'.pubs[LastTaken(s')]
  {
    InitInv(s);
    InvRun(s, steps, s');
  }

  /** Each exchange of the consumer takes the publication that is newest at that moment, and
      it was not taken before. */
  lemma TakesTheNewest<W>(s: State<W>, steps: seq<Step<W>>, s': State<W>)
    requires Init(s) && Run(s, steps, s') && s'.c.CExchange?
    ensures Shaped(s') && |s'.pubs| > 0 && |s'.pubs| - 1 !in s'.taken
    ensures var t := ReadDo(s');
            LastTaken(t) == |s'.pubs| - 1 && Slot(t.output)
            && t.storage[t.output as int] == s'.pubs[|s'.pubs| - 1]
  {
    InitInv(s);
    InvRun(s, steps, s');
    TakeInv(s');
    TakenUpToLast(s', |s'.pubs| - 1);
  }

  /** Publication numbers of updating reads strictly increase, and a write reports an overwrite
      exactly if the publication before it is never taken. */
  lemma TakenAndOverwritten<W>(s: State<W>, steps: seq<Step<W>>, s': State<W>)
    requires Init(s) && Run(s, steps, s')
    ensures Increasing(s'.taken)
    ensures |s'.overwrote| == |s'.pubs|
    ensures forall k | 0 <= k < |s'.pubs| :: s'.overwrote[k] <==> k > 0 && k - 1 !in s'.taken
  {
    InitInv(s);
    InvRun(s, steps, s');
  }

  // ----- Calls end, and read is up to date -----

  predicate NoReadCall<W>(steps: seq<Step<W>>) {
    forall k | 0 <= k < |steps| :: !steps[k].ReadCall?
  }

  predicate NoWriteCall<W>(steps: seq<Step<W>>) {
    forall k | 0 <= k < |steps| :: !steps[k].WriteCall?
  }

  function ReadMoves<W>(steps: seq<Step<W>>): nat {
    if steps == [] then 0 else (if steps[0].ReadStep? then 1 else 0) + ReadMoves(steps[1..])
  }

  function WriteMoves<W>(steps: seq<Step<W>>): nat {
    if steps == [] then 0 else (if steps[0].WriteStep? then 1 else 0) + WriteMoves(steps[1..])
  }

  /** How many moves are left of a read. */
  function ReadRank<W>(s: State<W>): nat {
    match s.c
    case CIdle => 0
    case CExchange => s.width + 2
    case CReading(out) => if |out| < s.width then s.width - |out| + 1 else 1
  }

  function WriteRank<W>(s: State<W>): nat {
    match s.p
    case PIdle => 0
    case PPublish(_) => 1
    case PWriting(_, k) => if k < s.width then s.width - k + 2 else 2
  }

  /** A call of read goes for the exchange exactly if there is a publication not taken yet. */
  lemma ReadSeesTheUntaken<W>(s: State<W>, steps: seq<Step<W>>, s': State<W>)
    requires Init(s) && Run(s, steps, s') && s'.c.CIdle?
    ensures Shaped(s') && (Do(s', ReadCall).c.CExchange? <==> |s'.pubs| > 0 && |s'.pubs| - 1 !in s'.taken)
  {
    InitInv(s);
    InvRun(s, steps, s');
    TakenUpToLast(s', |s'.pubs| - 1);
  }

  /** A read that will have taken publication n - 1, or a later one. */
  ghost predicate UpTo<W>(s: State<W>, n: nat) {
    n <= |s.pubs| && (s.c.CExchange? || LastTaken(s) >= n - 1)
  }

  lemma UpToStep<W>(s: State<W>, step: Step<W>, n: nat)
    requires Inv(s) && Enabled(s, step) && !step.ReadCall? && UpTo(s, n)
    ensures UpTo(Do(s, step), n) && Do(s, step).width == s.width
    ensures ReadRank(Do(s, step)) + (if step.ReadStep? then 1 else 0) <= ReadRank(s)
  {
    match step
    case WriteCall(v) =>
    case WriteStep =>
    case ReadStep =>
  }

  lemma {:induction false} UpToRun<W>(s: State<W>, steps: seq<Step<W>>, s': State<W>, n: nat)
    requires Inv(s) && Run(s, steps, s') && NoReadCall(steps) && UpTo(s, n)
    ensures UpTo(s', n) && ReadRank(s') + ReadMoves(steps) <= ReadRank(s)
    decreases |steps|
  {
    if steps != [] {
      InvStep(s, steps[0]);
      UpToStep(s, steps[0], n);
      UpToRun(Do(s, steps[0]), steps[1..], s', n);
    }
  }

  /** A read hands out nothing older than what was published newest when it was called, and it is
      done after as many moves as a value has words, and two, whatever the producer does. */
  lemma ReadIsUpToDate<W>(s0: State<W>, steps: seq<Step<W>>, s: State<W>, more: seq<Step<W>>, s': State<W>)
    requires Init(s0) && Run(s0, steps, s) && s.c.CIdle?
    requires Shaped(s) && Run(Do(s, ReadCall), more, s') && NoReadCall(more)
    ensures !s'.c.CExchange? ==> LastTaken(s') >= |s.pubs| - 1
    ensures ReadMoves(more) <= s.width + 2 && (ReadMoves(more) == s.width + 2 ==> s'.c.CIdle?)
  {
    InitInv(s0);
    InvRun(s0, steps, s);
    InvStep(s, ReadCall);
    UpToRun(Do(s, ReadCall), more, s', |s.pubs|);
  }

  /** Inside a write of v, or behind it; `before` was published earlier. */
  ghost predicate Publishes<W>(s: State<W>, v: seq<W>, before: seq<seq<W>>) {
    if s.p.PIdle? then s.pubs == before + [v] else s.p.v == v && s.pubs == before
  }

  lemma PublishesStep<W>(s: State<W>, step: Step<W>, v: seq<W>, before: seq<seq<W>>)
    requires Inv(s) && Enabled(s, step) && !step.WriteCall? && Publishes(s, v, before)
    ensures Publishes(Do(s, step), v, before) && Do(s, step).width == s.width
    ensures WriteRank(Do(s, step)) + (if step.WriteStep? then 1 else 0) <= WriteRank(s)
  {
    match step
    case WriteStep =>
    case ReadCall =>
    case ReadStep =>
  }

  lemma {:induction false} PublishesRun<W>(s: State<W>, steps: seq<Step<W>>, s': State<W>, v: seq<W>, before: seq<seq<W>>)
    requires Inv(s) && Run(s, steps, s') && NoWriteCall(steps) && Publishes(s, v, before)
    ensures Publishes(s', v, before) && WriteRank(s') + WriteMoves(steps) <= WriteRank(s)
    decreases |steps|
  {
    if steps != [] {
      InvStep(s, steps[0]);
      PublishesStep(s, steps[0], v, before);
      PublishesRun(Do(s, steps[0]), steps[1..], s', v, before);
    }
  }

  /** A write publishes its value, once, and is done after as many moves as the value has words, and
      two, whatever the consumer does. */
  lemma WritePublishes<W>(s0: State<W>, steps: seq<Step<W>>, s: State<W>, v: seq<W>, more: seq<Step<W>>, s': State<W>)
    requires Init(s0) && Run(s0, steps, s) && s.p.PIdle? && |v| == s.width
    requires Shaped(s) && Run(Do(s, WriteCall(v)), more, s') && NoWriteCall(more)
    ensures s'.pubs == (if s'.p.PIdle? then s.pubs + [v] else s.pubs)
    ensures WriteMoves(more) <= s.width + 2 && (WriteMoves(more) == s.width + 2 ==> s'.p.PIdle?)
  {
    InitInv(s0);
    InvRun(s0, steps, s);
    InvStep(s, WriteCall(v));
    PublishesRun(Do(s, WriteCall(v)), more, s', v, s.pubs);
  }
}
