/** The segment array under any number of concurrent pushes and one reader that folds it: a push takes a ticket, finds
    or installs the ticket's segment, writes, waits for its turn, and publishes. One atomic operation a step. */
module SegmentPushes {
  import opened Options
  import opened SegmentArray

  type Tid = nat
  type Id = nat   // an allocated segment

  datatype Pc =
    | Idle
    | Finding(w: nat)                 // holds ticket w, loads the segment pointer next
    | Installing(w: nat, tmp: Id)     // has allocated a segment, tries to install it next
    | Writing(w: nat, seg: Id)
    | Waiting(w: nat)                 // spins until the count is its ticket
    | Publishing(w: nat)

  datatype Reader = Away | Folding(r: nat, w: nat, n: nat, m: nat, acc: seq<Value>) | Done(r: nat, acc: seq<Value>)

  datatype State = State(
    max: nat,
    prev: nat,
    count: nat,
    table: map<nat, Id>,                 // installed segments
    memory: seq<seq<Option<Value>>>,     // every segment ever allocated, by its id
    pcs: map<Tid, Pc>,                   // absent: Idle
    reader: Reader,
    // history
    values: seq<Value>,                  // by ticket
    holder: seq<Tid>,                    // by ticket
    allocator: seq<Tid>)                 // by segment id

  function PcOf(s: State, t: Tid): Pc {
    if t in s.pcs then s.pcs[t] else Idle
  }

  ghost predicate Init(s: State) {
    && s.prev == s.count == 0 && s.table == map[] && s.memory == [] && s.pcs == map[] && s.reader.Away?
    && s.values == [] && s.holder == [] && s.allocator == []
  }

  datatype Step = Push(t: Tid, v: Value) | Continue(t: Tid) | BeginFold | FoldNext

  predicate Enabled(s: State, step: Step) {
    match step
    case Push(t, _) => PcOf(s, t).Idle? && s.prev < s.max
    case Continue(t) => CanContinue(s, PcOf(s, t))
    case BeginFold => !s.reader.Folding?
    case FoldNext => s.reader.Folding? && CanRead(s)
  }

  /** The places that a step reads or writes exist; that they always do is part of what is proved. */
  predicate CanContinue(s: State, pc: Pc) {
    match pc
    case Idle => false
    case Installing(_, tmp) => tmp < |s.memory|
    case Writing(w, seg) => w < |s.values| && seg < |s.memory| && Locate(w).pos < |s.memory[seg]|
    case _ => true
  }

  predicate CanRead(s: State)
    requires s.reader.Folding?
  {
    s.reader.w < s.reader.r && s.reader.m < Chunk(s.reader) ==>
      && s.reader.n in s.table && s.table[s.reader.n] < |s.memory|
      && s.reader.m < |s.memory[s.table[s.reader.n]]| && s.memory[s.table[s.reader.n]][s.reader.m].Some?
  }

  /** How much of the present segment is to be folded. */
  function Chunk(reader: Reader): nat
    requires reader.Folding?
  {
    if reader.r <= reader.w then 0
    else if Pow2(reader.n) < reader.r - reader.w then Pow2(reader.n) else reader.r - reader.w
  }

  function Go(s: State, t: Tid, pc: Pc): State {
    s.(pcs := s.pcs[t := pc])
  }

  function Do(s: State, step: Step): State
    requires Enabled(s, step)
  {
    match step
    case Push(t, v) =>
      Go(s, t, Finding(s.prev)).(prev := s.prev + 1, values := s.values + [v], holder := s.holder + [t])
    case Continue(t) => DoContinue(s, t, PcOf(s, t))
    case BeginFold => s.(reader := Folding(s.count, 0, 0, 0, []))
    case FoldNext => s.(reader := Read(s))
  }

  function DoContinue(s: State, t: Tid, pc: Pc): State
    requires CanContinue(s, pc)
  {
    match pc
    case Finding(w) =>
      var n := Locate(w).seg;
      if n in s.table then Go(s, t, Writing(w, s.table[n]))
      else
        Go(s, t, Installing(w, |s.memory|))
        .(memory := s.memory + [seq(Pow2(n), i => None)], allocator := s.allocator + [t])
    case Installing(w, tmp) =>
      var n := Locate(w).seg;
      if n in s.table then Go(s, t, Writing(w, s.table[n]))
      else Go(s, t, Writing(w, tmp)).(table := s.table[n := tmp])
    case Writing(w, seg) =>
      Go(s, t, Waiting(w)).(memory := s.memory[seg := s.memory[seg][Locate(w).pos := Some(s.values[w])]])
    case Waiting(w) => if s.count == w then Go(s, t, Publishing(w)) else s
    case Publishing(w) => Go(s, t, Idle).(count := w + 1)
  }

  function Read(s: State): Reader
    requires s.reader.Folding? && CanRead(s)
  {
    var Folding(r, w, n, m, acc) := s.reader;
    if w >= r then Done(r, acc)
    else if m < Chunk(s.reader) then Folding(r, w, n, m + 1, acc + [s.memory[s.table[n]][m].value])
    else Folding(r, w + Chunk(s.reader), n + 1, 0, acc)
  }

  // ----- the invariant -----

  ghost predicate SizesOk(s: State) {
    s.count <= s.prev <= s.max && |s.values| == |s.holder| == s.prev && |s.allocator| == |s.memory|
  }

  /** The slot of ticket w holds its value. */
  ghost predicate Written(s: State, w: nat)
    requires w < |s.values|
  {
    var loc := Locate(w);
    && loc.seg in s.table && s.table[loc.seg] < |s.memory| && loc.pos < |s.memory[s.table[loc.seg]]|
    && s.memory[s.table[loc.seg]][loc.pos] == Some(s.values[w])
  }

  /** An installed segment has its size and is installed nowhere else. */
  ghost predicate SegmentOk(s: State, n: nat) {
    n in s.table ==>
      && s.table[n] < |s.memory| && |s.memory[s.table[n]]| == Pow2(n)
      && forall k :: k in s.table && k != n ==> s.table[k] != s.table[n]
  }

  predicate HoldsTicket(pc: Pc) {
    !pc.Idle?
  }

  ghost predicate PcOk(s: State, t: Tid)
    requires SizesOk(s)
  {
    var pc := PcOf(s, t);
    !pc.Idle? ==>
      && s.count <= pc.w < s.prev && s.holder[pc.w] == t
      && (pc.Installing? ==> TmpOk(s, t))
      && (pc.Writing? ==> Locate(pc.w).seg in s.table && pc.seg == s.table[Locate(pc.w).seg])
      && (pc.Waiting? || pc.Publishing? ==> Written(s, pc.w))
      && (pc.Publishing? ==> s.count == pc.w)
  }

  /** A segment about to be installed is nobody else's. */
  ghost predicate TmpOk(s: State, t: Tid)
    requires SizesOk(s) && PcOf(s, t).Installing?
  {
    var pc := PcOf(s, t);
    && pc.tmp < |s.memory| && |s.memory[pc.tmp]| == Pow2(Locate(pc.w).seg) && s.allocator[pc.tmp] == t
    && forall k :: k in s.table ==> s.table[k] != pc.tmp
  }

  /** A published ticket is written; any other one is in its holder's hands. */
  ghost predicate TicketOk(s: State, w: nat)
    requires SizesOk(s) && w < s.prev
  {
    if w < s.count then Written(s, w)
    else HoldsTicket(PcOf(s, s.holder[w])) && PcOf(s, s.holder[w]).w == w
  }

  ghost predicate ReaderOk(s: State)
    requires SizesOk(s)
  {
    match s.reader
    case Away => true
    case Folding(r, w, n, m, acc) =>
      && r <= s.count && w <= r && (w < r ==> w == Pow2(n) - 1) && m <= Chunk(s.reader) && w + m <= r
      && acc == s.values[..w + m]
    case Done(r, acc) => r <= s.count && acc == s.values[..r]
  }

  ghost predicate Inv(s: State) {
    && SizesOk(s)
    && (forall n :: SegmentOk(s, n))
    && (forall t :: PcOk(s, t))
    && (forall w: nat :: w < s.prev ==> TicketOk(s, w))
    && ReaderOk(s)
  }

  // ----- every step keeps the invariant -----

  /** Two tickets never share a slot. */
  lemma TicketsApart(a: nat, b: nat)
    requires Locate(a) == Locate(b)
    ensures a == b
  {
    LocateIsBijection(a, Locate(a), 0);
    LocateIsBijection(b, Locate(b), 0);
  }

  lemma PushKeepsInv(s: State, t: Tid, v: Value)
    requires Inv(s) && Enabled(s, Push(t, v))
    ensures Inv(Do(s, Push(t, v)))
  {
    var s' := Do(s, Push(t, v));
    forall n
      ensures SegmentOk(s', n)
    {
      assert SegmentOk(s, n);
    }
    forall u
      ensures PcOk(s', u)
    {
      assert PcOk(s, u);
    }
    forall w: nat | w < s'.prev
      ensures TicketOk(s', w)
    {
      if w < s.prev {
        assert TicketOk(s, w) && PcOk(s, s.holder[w]);
      }
    }
  }

  /** A step that moves one thread's program counter and may add to the table and the memory. */
  ghost predicate Grows(s: State, s': State, t: Tid) {
    && s' == s.(pcs := s'.pcs, table := s'.table, memory := s'.memory, allocator := s'.allocator)
    && (forall u :: u != t ==> PcOf(s', u) == PcOf(s, u))
    && (forall n :: n in s.table ==> n in s'.table && s'.table[n] == s.table[n])
    && s.memory <= s'.memory
    && !PcOf(s, t).Idle? && !PcOf(s', t).Idle? && PcOf(s', t).w == PcOf(s, t).w
  }

  lemma WrittenStays(s: State, s': State, w: nat)
    requires w < |s.values| && Written(s, w) && s'.values == s.values && s.memory <= s'.memory
    requires forall n :: n in s.table ==> n in s'.table && s'.table[n] == s.table[n]
    ensures Written(s', w)
  {
  }

  /** What is left to prove of such a step. */
  lemma GrowsKeepsInv(s: State, s': State, t: Tid)
    requires Inv(s) && Grows(s, s', t) && SizesOk(s')
    requires forall n :: SegmentOk(s', n)
    requires PcOk(s', t)
    requires forall u :: u != t && PcOf(s, u).Installing? ==> TmpOk(s', u)
    ensures Inv(s')
  {
    forall u
      ensures PcOk(s', u)
    {
      assert PcOk(s, u);
      if u != t && (PcOf(s, u).Waiting? || PcOf(s, u).Publishing?) {
        WrittenStays(s, s', PcOf(s, u).w);
      }
    }
    forall w: nat | w < s.prev
      ensures TicketOk(s', w)
    {
      assert TicketOk(s, w);
      if w < s.count {
        WrittenStays(s, s', w);
      }
    }
  }

  /** Installed segments are as large as the pointer arithmetic needs. */
  lemma FoundSegment(s: State, w: nat)
    requires (forall n :: SegmentOk(s, n)) && Locate(w).seg in s.table
    ensures s.table[Locate(w).seg] < |s.memory| && Locate(w).pos < |s.memory[s.table[Locate(w).seg]]|
  {
    assert SegmentOk(s, Locate(w).seg);
    LocateIsBijection(w, Locate(w), 0);
  }

  lemma MoveKeepsInv(s: State, t: Tid, pc: Pc)
    requires Inv(s) && !PcOf(s, t).Idle? && !pc.Idle? && pc.w == PcOf(s, t).w && !pc.Installing?
    requires PcOk(Go(s, t, pc), t)
    ensures Inv(Go(s, t, pc))
  {
    var s' := Go(s, t, pc);
    forall n
      ensures SegmentOk(s', n)
    {
      assert SegmentOk(s, n);
    }
    forall u | u != t && PcOf(s, u).Installing?
      ensures TmpOk(s', u)
    {
      assert PcOk(s, u);
    }
    GrowsKeepsInv(s, s', t);
  }

  lemma AllocateKeepsInv(s: State, t: Tid)
    requires Inv(s) && PcOf(s, t).Finding? && Locate(PcOf(s, t).w).seg !in s.table
    ensures Inv(DoContinue(s, t, PcOf(s, t)))
  {
    var s' := DoContinue(s, t, PcOf(s, t));
    forall n
      ensures SegmentOk(s', n)
    {
      assert SegmentOk(s, n);
    }
    forall u | u != t && PcOf(s, u).Installing?
      ensures TmpOk(s', u)
    {
      assert PcOk(s, u);
    }
    assert PcOk(s, t);
    forall k | k in s.table
      ensures s.table[k] != |s.memory|
    {
      assert SegmentOk(s, k);
    }
    GrowsKeepsInv(s, s', t);
  }

  lemma InstallKeepsInv(s: State, t: Tid)
    requires Inv(s) && PcOf(s, t).Installing? && CanContinue(s, PcOf(s, t)) && Locate(PcOf(s, t).w).seg !in s.table
    ensures Inv(DoContinue(s, t, PcOf(s, t)))
  {
    var s' := DoContinue(s, t, PcOf(s, t));
    assert PcOk(s, t);
    forall n
      ensures SegmentOk(s', n)
    {
      assert SegmentOk(s, n);
    }
    forall u | u != t && PcOf(s, u).Installing?
      ensures TmpOk(s', u)
    {
      assert PcOk(s, u);
    }
    GrowsKeepsInv(s, s', t);
  }

  /** A write changes the slot of its own ticket only. */
  lemma WriteKeepsWritten(s: State, t: Tid, w: nat)
    requires Inv(s) && PcOf(s, t).Writing? && CanContinue(s, PcOf(s, t)) && w < s.prev
    requires Written(s, w) || w == PcOf(s, t).w
    ensures Written(DoContinue(s, t, PcOf(s, t)), w)
  {
    var Writing(own, seg) := PcOf(s, t);
    assert PcOk(s, t);
    var loc := Locate(w);
    assert SegmentOk(s, loc.seg) && SegmentOk(s, Locate(own).seg);
    if w != own && s.table[loc.seg] == seg && loc.pos == Locate(own).pos {
      TicketsApart(w, own);
    }
  }

  lemma WriteKeepsThread(s: State, t: Tid, u: Tid)
    requires Inv(s) && PcOf(s, t).Writing? && CanContinue(s, PcOf(s, t))
    ensures PcOk(DoContinue(s, t, PcOf(s, t)), u)
  {
    assert PcOk(s, u);
    var pc := PcOf(s, u);
    if u == t || pc.Waiting? || pc.Publishing? {
      WriteKeepsWritten(s, t, pc.w);
    }
  }

  lemma WriteKeepsInv(s: State, t: Tid)
    requires Inv(s) && PcOf(s, t).Writing? && CanContinue(s, PcOf(s, t))
    ensures Inv(DoContinue(s, t, PcOf(s, t)))
  {
    var s' := DoContinue(s, t, PcOf(s, t));
    forall n
      ensures SegmentOk(s', n)
    {
      assert SegmentOk(s, n);
    }
    forall u
      ensures PcOk(s', u)
    {
      WriteKeepsThread(s, t, u);
    }
    forall w: nat | w < s.prev
      ensures TicketOk(s', w)
    {
      assert TicketOk(s, w);
      if w < s.count {
        WriteKeepsWritten(s, t, w);
      }
    }
  }

  lemma PublishKeepsInv(s: State, t: Tid)
    requires Inv(s) && PcOf(s, t).Publishing?
    ensures Inv(DoContinue(s, t, PcOf(s, t)))
  {
    var s' := DoContinue(s, t, PcOf(s, t));
    assert PcOk(s, t);
    forall n
      ensures SegmentOk(s', n)
    {
      assert SegmentOk(s, n);
    }
    forall u
      ensures PcOk(s', u)
    {
      assert PcOk(s, u);
    }
    forall w: nat | w < s.prev
      ensures TicketOk(s', w)
    {
      assert TicketOk(s, w);
    }
  }

  lemma ContinueKeepsInv(s: State, t: Tid)
    requires Inv(s) && Enabled(s, Continue(t))
    ensures Inv(Do(s, Continue(t)))
  {
    assert PcOk(s, t);
    match PcOf(s, t) {
      case Finding(w) =>
        if Locate(w).seg in s.table {
          MoveKeepsInv(s, t, Writing(w, s.table[Locate(w).seg]));
        } else {
          AllocateKeepsInv(s, t);
        }
      case Installing(w, tmp) =>
        if Locate(w).seg in s.table {
          MoveKeepsInv(s, t, Writing(w, s.table[Locate(w).seg]));
        } else {
          InstallKeepsInv(s, t);
        }
      case Writing(w, seg) => WriteKeepsInv(s, t);
      case Waiting(w) =>
        if s.count == w {
          MoveKeepsInv(s, t, Publishing(w));
        }
      case Publishing(w) => PublishKeepsInv(s, t);
    }
  }

  /** The reader finds the value of the ticket that it has come to. */
  lemma ReaderFinds(s: State)
    requires Inv(s) && s.reader.Folding? && s.reader.w < s.reader.r && s.reader.m < Chunk(s.reader)
    ensures
      var Folding(r, w, n, m, acc) := s.reader;
      && n in s.table && s.table[n] < |s.memory| && m < |s.memory[s.table[n]]|
      && s.memory[s.table[n]][m] == Some(s.values[w + m])
  {
    var Folding(r, w, n, m, acc) := s.reader;
    LocateInSegment(n, m);
    assert TicketOk(s, w + m);
  }

  lemma FoldKeepsInv(s: State)
    requires Inv(s) && Enabled(s, FoldNext)
    ensures Inv(Do(s, FoldNext))
  {
    var s' := Do(s, FoldNext);
    var Folding(r, w, n, m, acc) := s.reader;
    if w < r && m < Chunk(s.reader) {
      ReaderFinds(s);
    }
    ReaderElsewhere(s, s');
  }

  lemma ReaderElsewhere(s: State, s': State)
    requires Inv(s) && s' == s.(reader := s'.reader) && ReaderOk(s')
    ensures Inv(s')
  {
    forall n
      ensures SegmentOk(s', n)
    {
      assert SegmentOk(s, n);
    }
    forall u
      ensures PcOk(s', u)
    {
      assert PcOk(s, u);
    }
    forall w: nat | w < s.prev
      ensures TicketOk(s', w)
    {
      assert TicketOk(s, w);
    }
  }

  /** Every step of every push and of the reader keeps the invariant. */
  lemma StepKeepsInv(s: State, step: Step)
    requires Inv(s) && Enabled(s, step)
    ensures Inv(Do(s, step))
  {
    match step {
      case Push(t, v) => PushKeepsInv(s, t, v);
      case Continue(t) => ContinueKeepsInv(s, t);
      case BeginFold => ReaderElsewhere(s, Do(s, BeginFold));
      case FoldNext => FoldKeepsInv(s);
    }
  }

  // ----- runs -----

  ghost predicate StepAt(run: seq<State>, i: nat)
    requires i + 1 < |run|
  {
    exists step :: Enabled(run[i], step) && run[i + 1] == Do(run[i], step)
  }

  /** Any interleaving of any number of pushes with folds. */
  ghost predicate Run(run: seq<State>) {
    |run| >= 1 && Init(run[0]) && forall i :: 0 <= i < |run| - 1 ==> StepAt(run, i)
  }

  lemma {:induction false} RunKeepsInv(run: seq<State>, i: nat)
    requires Run(run) && i < |run|
    ensures Inv(run[i])
  {
    if i > 0 {
      RunKeepsInv(run, i - 1);
      assert StepAt(run, i - 1);
      var step :| Enabled(run[i - 1], step) && run[i] == Do(run[i - 1], step);
      StepKeepsInv(run[i - 1], step);
    }
  }

  /** Every slot below the published count holds the value of its ticket. */
  lemma PublishedAreWritten(run: seq<State>, i: nat, w: nat)
    requires Run(run) && i < |run| && w < run[i].count
    ensures w < |run[i].values| && Written(run[i], w)
  {
    RunKeepsInv(run, i);
    assert TicketOk(run[i], w);
  }

  /** States first to last belong to one fold, which begins with the step from `first`. */
  ghost predicate OneFold(run: seq<State>, first: nat, last: nat) {
    && Run(run) && first < last < |run|
    && Enabled(run[first], BeginFold) && run[first + 1] == Do(run[first], BeginFold)
    && (forall m :: first < m < last ==> run[m].reader.Folding?) && run[last].reader.Done?
  }

  lemma StepKeepsCount(s: State, step: Step)
    requires Enabled(s, step) && s.reader.Folding?
    ensures !Do(s, step).reader.Away? && Do(s, step).reader.r == s.reader.r
    ensures s.values <= Do(s, step).values
  {
  }

  lemma {:induction false} FoldKeepsCount(run: seq<State>, first: nat, m: nat, last: nat)
    requires OneFold(run, first, last) && first < m <= last
    ensures !run[m].reader.Away? && run[m].reader.r == run[first].count && run[first].values <= run[m].values
    decreases m
  {
    if m > first + 1 {
      FoldKeepsCount(run, first, m - 1, last);
      assert StepAt(run, m - 1);
      var step :| Enabled(run[m - 1], step) && run[m] == Do(run[m - 1], step);
      StepKeepsCount(run[m - 1], step);
    }
  }

  /** A fold takes the values of the tickets below the count at its first state, in ticket order, whatever was pushed
      and installed meanwhile; what it accumulates from them is their left fold. */
  lemma FoldTakesPrefix<A>(run: seq<State>, first: nat, last: nat, f: (A, Value) -> A, init: A)
    requires OneFold(run, first, last)
    ensures run[first].count <= |run[first].values| && run[last].reader.r == run[first].count
    ensures run[last].reader.acc == run[first].values[..run[first].count]
    ensures FoldLeft(f, init, run[last].reader.acc) == FoldLeft(f, init, run[first].values[..run[first].count])
  {
    RunKeepsInv(run, first);
    RunKeepsInv(run, last);
    FoldKeepsCount(run, first, last, last);
  }

  /** No push and no fold ever meets a missing segment or a missing value: each can always go on. */
  lemma NothingIsMissing(run: seq<State>, i: nat, t: Tid)
    requires Run(run) && i < |run|
    ensures PcOf(run[i], t).Idle? || CanContinue(run[i], PcOf(run[i], t))
    ensures run[i].reader.Folding? ==> CanRead(run[i])
  {
    RunKeepsInv(run, i);
    var s := run[i];
    assert PcOk(s, t);
    if PcOf(s, t).Writing? {
      FoundSegment(s, PcOf(s, t).w);
    }
    if s.reader.Folding? && s.reader.w < s.reader.r && s.reader.m < Chunk(s.reader) {
      ReaderFinds(s);
    }
  }

  /** A segment is installed once: it is never replaced, and nobody else's slot is ever written. */
  lemma InstalledForGood(s: State, step: Step, n: nat)
    requires Inv(s) && Enabled(s, step) && n in s.table
    ensures n in Do(s, step).table && Do(s, step).table[n] == s.table[n]
    ensures forall w: nat :: w < s.prev && Written(s, w) ==> Written(Do(s, step), w)
  {
    var s' := Do(s, step);
    forall w: nat | w < s.prev && Written(s, w)
      ensures Written(s', w)
    {
      if step.Continue? && PcOf(s, step.t).Writing? {
        WriteKeepsWritten(s, step.t, w);
      }
    }
  }

  // ----- calls that nobody disturbs -----

  function StepsLeft(pc: Pc): nat {
    match pc
    case Idle => 0
    case Finding(_) => 5
    case Installing(_, _) => 4
    case Writing(_, _) => 3
    case Waiting(_) => 2
    case Publishing(_) => 1
  }

  /** At most n steps of the thread's push. */
  function Alone(s: State, t: Tid, n: nat): State
    decreases n
  {
    if n == 0 || !Enabled(s, Continue(t)) then s else Alone(Do(s, Continue(t)), t, n - 1)
  }

  /** A push whose turn it is gets on with every step. */
  lemma TurnStep(s: State, t: Tid)
    requires Inv(s) && !PcOf(s, t).Idle? && s.count == PcOf(s, t).w
    ensures Enabled(s, Continue(t))
    ensures
      var s' := Do(s, Continue(t));
      && StepsLeft(PcOf(s', t)) < StepsLeft(PcOf(s, t)) && s'.prev == s.prev && s'.values == s.values
      && if PcOf(s', t).Idle? then s'.count == s.count + 1 else s'.count == s.count == PcOf(s', t).w
  {
    assert PcOk(s, t);
    if PcOf(s, t).Writing? {
      FoundSegment(s, PcOf(s, t).w);
    }
  }

  lemma {:induction false} TurnComes(s: State, t: Tid, n: nat)
    requires Inv(s) && !PcOf(s, t).Idle? && s.count == PcOf(s, t).w && StepsLeft(PcOf(s, t)) <= n
    ensures
      var s' := Alone(s, t, n);
      Inv(s') && PcOf(s', t).Idle? && s'.count == s.count + 1 && s'.prev == s.prev && s'.values == s.values
    decreases n
  {
    TurnStep(s, t);
    StepKeepsInv(s, Continue(t));
    var s' := Do(s, Continue(t));
    if !PcOf(s', t).Idle? {
      TurnComes(s', t, n - 1);
    }
  }

  /** When no other push is under way, a push returns after at most five more steps, and its value is published. */
  lemma QuietPush(s: State, t: Tid, v: Value)
    requires Inv(s) && Enabled(s, Push(t, v)) && s.count == s.prev
    ensures
      var s' := Alone(Do(s, Push(t, v)), t, 5);
      && PcOf(s', t).Idle? && s'.count == s'.prev == s.count + 1 && s'.values == s.values + [v]
      && Written(s', s.count)
  {
    var s1 := Do(s, Push(t, v));
    StepKeepsInv(s, Push(t, v));
    TurnComes(s1, t, 5);
    assert TicketOk(Alone(s1, t, 5), s.count);
  }

  function ReadsLeft(reader: Reader): nat {
    if reader.Folding? && reader.w <= reader.r && reader.m <= 2 * (reader.r - reader.w)
    then 2 * (reader.r - reader.w) - reader.m + 1
    else 0
  }

  /** At most n steps of the reader. */
  function FoldAlone(s: State, n: nat): State
    decreases n
  {
    if n == 0 || !Enabled(s, FoldNext) then s else FoldAlone(Do(s, FoldNext), n - 1)
  }

  lemma FoldStep(s: State)
    requires Inv(s) && s.reader.Folding?
    ensures Enabled(s, FoldNext)
    ensures
      var s' := Do(s, FoldNext);
      && s'.values == s.values && s'.reader.r == s.reader.r && (s'.reader.Folding? || s'.reader.Done?)
      && (s'.reader.Folding? ==> ReadsLeft(s'.reader) < ReadsLeft(s.reader))
  {
    if s.reader.w < s.reader.r && s.reader.m < Chunk(s.reader) {
      ReaderFinds(s);
    }
  }

  lemma {:induction false} FoldEnds(s: State, n: nat)
    requires Inv(s) && s.reader.Folding? && ReadsLeft(s.reader) <= n
    ensures Inv(FoldAlone(s, n)) && FoldAlone(s, n).values == s.values && s.reader.r <= |s.values|
    ensures FoldAlone(s, n).reader == Done(s.reader.r, s.values[..s.reader.r])
    decreases n
  {
    FoldStep(s);
    StepKeepsInv(s, FoldNext);
    if Do(s, FoldNext).reader.Folding? {
      FoldEnds(Do(s, FoldNext), n - 1);
    }
  }

  /** A fold that nobody disturbs ends, with the values of all published tickets. */
  lemma QuietFold(s: State)
    requires Inv(s) && Enabled(s, BeginFold)
    ensures s.count <= |s.values|
    ensures FoldAlone(Do(s, BeginFold), 2 * s.count + 1).reader == Done(s.count, s.values[..s.count])
  {
    StepKeepsInv(s, BeginFold);
    FoldEnds(Do(s, BeginFold), 2 * s.count + 1);
  }
}
