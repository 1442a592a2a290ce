/** The shared stack: any number of threads push chains of nodes at its head with a compare-exchange loop, and take the
    whole stack by exchanging the head for null. One atomic operation, or one write to an owned node, a step. */
module AtomicQueue {
  import opened Options
  import opened Sequences

  type Tid = nat
  type Node = nat

  type Chain = list: seq<Node> | list != [] witness [0]

  datatype Pc =
    | Idle
    | Linking(chain: Chain, expected: Option<Node>)   // about to write the chain's last next link
    | Swapping(chain: Chain, expected: Option<Node>)
    | Resetting(expected: Option<Node>)

  datatype State = State(
    head: Option<Node>,
    next: map<Node, Option<Node>>,
    pcs: map<Tid, Pc>,              // absent: Idle
    // history
    contents: seq<Node>,            // what was pushed and not taken, newest first
    owner: map<Node, Option<Tid>>)  // None: in the stack

  function PcOf(s: State, t: Tid): Pc {
    if t in s.pcs then s.pcs[t] else Idle
  }

  function First(list: seq<Node>): Option<Node> {
    if list == [] then None else Some(list[0])
  }

  predicate Owns(s: State, t: Tid, n: Node) {
    n in s.owner && s.owner[n] == Some(t)
  }

  /** Node i of the list is followed by node i + 1. */
  ghost predicate Leads(next: map<Node, Option<Node>>, list: seq<Node>, i: nat)
    requires i + 1 < |list|
  {
    list[i] in next && next[list[i]] == Some(list[i + 1])
  }

  ghost predicate Linked(next: map<Node, Option<Node>>, list: seq<Node>) {
    forall i :: 0 <= i < |list| - 1 ==> Leads(next, list, i)
  }

  ghost predicate EndsWith(next: map<Node, Option<Node>>, list: seq<Node>, rest: Option<Node>) {
    list != [] ==> list[|list| - 1] in next && next[list[|list| - 1]] == rest
  }

  ghost predicate Init(s: State) {
    s.head == None && s.contents == [] && s.pcs == map[] && s.next.Keys == s.owner.Keys &&
    forall n :: n in s.owner ==> s.owner[n].Some?
  }

  datatype Step =
    | Push(t: Tid, chain: Chain)
    | Reset(t: Tid)
    | Continue(t: Tid, spurious: bool)
    | Write(t: Tid, n: Node, to: Option<Node>)

  /** A chain may be pushed by the owner of its nodes; where its last node points does not matter. */
  ghost predicate Enabled(s: State, step: Step) {
    match step
    case Push(t, chain) =>
      PcOf(s, t).Idle? && Distinct(chain) && Linked(s.next, chain) && forall n :: n in chain ==> Owns(s, t, n)
    case Reset(t) => PcOf(s, t).Idle?
    case Continue(t, _) => !PcOf(s, t).Idle?
    case Write(t, n, _) => PcOf(s, t).Idle? && Owns(s, t, n)
  }

  function Go(s: State, t: Tid, pc: Pc): State {
    s.(pcs := s.pcs[t := pc])
  }

  function Give(owner: map<Node, Option<Tid>>, list: seq<Node>, to: Option<Tid>): map<Node, Option<Tid>> {
    map n | n in owner :: if n in list then to else owner[n]
  }

  ghost function Do(s: State, step: Step): State
    requires Enabled(s, step)
  {
    match step
    case Push(t, chain) => Go(s, t, Linking(chain, s.head))
    case Reset(t) => Go(s, t, Resetting(s.head))
    case Continue(t, spurious) => DoContinue(s, t, PcOf(s, t), spurious)
    case Write(t, n, to) => s.(next := s.next[n := to])
  }

  function DoContinue(s: State, t: Tid, pc: Pc, spurious: bool): State
    requires !pc.Idle?
  {
    match pc
    case Linking(chain, expected) =>
      Go(s, t, Swapping(chain, expected)).(next := s.next[chain[|chain| - 1] := expected])
    case Swapping(chain, expected) =>
      if s.head == expected && !spurious then
        Go(s, t, Idle).(head := Some(chain[0]), contents := chain + s.contents, owner := Give(s.owner, chain, None))
      else
        Go(s, t, Linking(chain, s.head))
    case Resetting(expected) =>
      if s.head == expected && !spurious then
        Go(s, t, Idle).(head := None, contents := [], owner := Give(s.owner, s.contents, Some(t)))
      else
        Go(s, t, Resetting(s.head))
  }

  // ----- the invariant -----

  /** From the head the next links lead through exactly the contents, and end. */
  ghost predicate StackOk(s: State) {
    && s.head == First(s.contents) && Distinct(s.contents)
    && Linked(s.next, s.contents) && EndsWith(s.next, s.contents, None)
    && forall n :: n in s.contents <==> n in s.owner && s.owner[n] == None
  }

  ghost predicate PcOk(s: State, t: Tid) {
    var pc := PcOf(s, t);
    pc.Linking? || pc.Swapping? ==>
      && Distinct(pc.chain) && Linked(s.next, pc.chain)
      && (forall n :: n in pc.chain ==> Owns(s, t, n))
      && (pc.Swapping? ==> EndsWith(s.next, pc.chain, pc.expected))
  }

  ghost predicate Inv(s: State) {
    StackOk(s) && forall t :: PcOk(s, t)
  }

  // ----- chains -----

  /** Writing a link outside a list leaves the list linked. */
  lemma LinkedElsewhere(next: map<Node, Option<Node>>, list: seq<Node>, n: Node, to: Option<Node>, rest: Option<Node>)
    requires Linked(next, list) && n !in list
    ensures Linked(next[n := to], list)
    ensures EndsWith(next, list, rest) ==> EndsWith(next[n := to], list, rest)
  {
    var next' := next[n := to];
    forall i | 0 <= i < |list| - 1
      ensures Leads(next', list, i)
    {
      assert Leads(next, list, i);
    }
  }

  /** Nor does writing the link behind its last node. */
  lemma LinkedLast(next: map<Node, Option<Node>>, list: Chain, to: Option<Node>)
    requires Linked(next, list) && Distinct(list)
    ensures Linked(next[list[|list| - 1] := to], list) && EndsWith(next[list[|list| - 1] := to], list, to)
  {
    var next' := next[list[|list| - 1] := to];
    forall i | 0 <= i < |list| - 1
      ensures Leads(next', list, i)
    {
      assert Leads(next, list, i);
      assert Differ(list, i, |list| - 1);
    }
  }

  lemma LinkedJoined(next: map<Node, Option<Node>>, a: Chain, b: seq<Node>)
    requires Linked(next, a) && Linked(next, b) && EndsWith(next, a, First(b)) && EndsWith(next, b, None)
    ensures Linked(next, a + b) && EndsWith(next, a + b, None)
  {
    var list := a + b;
    forall i | 0 <= i < |list| - 1
      ensures Leads(next, list, i)
    {
      if i < |a| - 1 {
        assert Leads(next, a, i);
      } else if i >= |a| {
        assert Leads(next, b, i - |a|);
      }
    }
  }

  // ----- every step keeps the invariant -----

  /** A thread writes a link of a node that it owns. */
  lemma WriteKeeps(s: State, s': State, t: Tid, n: Node, to: Option<Node>)
    requires Inv(s) && Owns(s, t, n) && s' == s.(next := s.next[n := to])
    ensures StackOk(s')
    ensures forall u :: u != t ==> PcOk(s', u)
  {
    LinkedElsewhere(s.next, s.contents, n, to, None);
    forall u | u != t
      ensures PcOk(s', u)
    {
      assert PcOk(s, u);
      var pc := PcOf(s, u);
      if pc.Linking? || pc.Swapping? {
        LinkedElsewhere(s.next, pc.chain, n, to, pc.expected);
      }
    }
  }

  lemma LinkKeepsInv(s: State, t: Tid, spurious: bool)
    requires Inv(s) && PcOf(s, t).Linking?
    ensures Inv(DoContinue(s, t, PcOf(s, t), spurious))
  {
    var s' := DoContinue(s, t, PcOf(s, t), spurious);
    var Linking(chain, expected) := PcOf(s, t);
    assert PcOk(s, t);
    var last := chain[|chain| - 1];
    assert Owns(s, t, last);
    LinkedLast(s.next, chain, expected);
    var w := s.(next := s.next[last := expected]);
    WriteKeeps(s, w, t, last, expected);
    forall u
      ensures PcOk(s', u)
    {
      if u != t {
        assert PcOk(w, u);
      }
    }
  }

  /** Moving nodes between the stack and one thread leaves the other threads' chains alone. */
  lemma GiveKeeps(s: State, s': State, t: Tid, list: seq<Node>, to: Option<Tid>, u: Tid)
    requires PcOk(s, u) && u != t && s'.next == s.next && PcOf(s', u) == PcOf(s, u)
    requires s'.owner == Give(s.owner, list, to)
    requires forall n :: n in list ==> !Owns(s, u, n)
    ensures PcOk(s', u)
  {
    var pc := PcOf(s, u);
    if pc.Linking? || pc.Swapping? {
      forall n | n in pc.chain
        ensures Owns(s', u, n)
      {
        assert Owns(s, u, n);
      }
    }
  }

  lemma SwapKeepsInv(s: State, t: Tid)
    requires Inv(s) && PcOf(s, t).Swapping? && s.head == PcOf(s, t).expected
    ensures Inv(DoContinue(s, t, PcOf(s, t), false))
  {
    var s' := DoContinue(s, t, PcOf(s, t), false);
    var chain := PcOf(s, t).chain;
    assert PcOk(s, t);
    assert forall n :: n in chain ==> Owns(s, t, n);
    LinkedJoined(s.next, chain, s.contents);
    DistinctJoined(chain, s.contents);
    forall u
      ensures PcOk(s', u)
    {
      if u != t {
        assert PcOk(s, u);
        GiveKeeps(s, s', t, chain, None, u);
      }
    }
  }

  lemma ResetKeepsInv(s: State, t: Tid)
    requires Inv(s) && PcOf(s, t).Resetting? && s.head == PcOf(s, t).expected
    ensures Inv(DoContinue(s, t, PcOf(s, t), false))
  {
    var s' := DoContinue(s, t, PcOf(s, t), false);
    forall u
      ensures PcOk(s', u)
    {
      if u != t {
        assert PcOk(s, u);
        GiveKeeps(s, s', t, s.contents, Some(t), u);
      }
    }
  }

  lemma MoveKeepsInv(s: State, t: Tid, pc: Pc)
    requires Inv(s)
    requires pc.Linking? || pc.Swapping? ==> PcOk(Go(s, t, pc), t)
    ensures Inv(Go(s, t, pc))
  {
    forall u
      ensures PcOk(Go(s, t, pc), u)
    {
      if u != t {
        assert PcOk(s, u);
      }
    }
  }

  lemma StepKeepsInv(s: State, step: Step)
    requires Inv(s) && Enabled(s, step)
    ensures Inv(Do(s, step))
  {
    match step {
      case Push(t, chain) => MoveKeepsInv(s, t, Linking(chain, s.head));
      case Reset(t) => MoveKeepsInv(s, t, Resetting(s.head));
      case Write(t, n, to) =>
        WriteKeeps(s, Do(s, step), t, n, to);
        assert PcOk(Do(s, step), t);
      case Continue(t, spurious) =>
        assert PcOk(s, t);
        match PcOf(s, t) {
          case Linking(_, _) => LinkKeepsInv(s, t, spurious);
          case Swapping(chain, expected) =>
            if s.head == expected && !spurious {
              SwapKeepsInv(s, t);
            } else {
              MoveKeepsInv(s, t, Linking(chain, s.head));
            }
          case Resetting(expected) =>
            if s.head == expected && !spurious {
              ResetKeepsInv(s, t);
            } else {
              MoveKeepsInv(s, t, Resetting(s.head));
            }
        }
    }
  }

  // ----- runs -----

  ghost predicate StepAt(run: seq<State>, i: nat)
    requires i + 1 < |run|
  {
    exists step :: Enabled(run[i], step) && run[i + 1] == Do(run[i], step)
  }

  ghost predicate Run(run: seq<State>) {
    |run| >= 1 && Init(run[0]) && forall i :: 0 <= i < |run| - 1 ==> StepAt(run, i)
  }

  lemma {:induction false} RunKeepsInv(run: seq<State>, i: nat)
    requires Run(run) && i < |run|
    ensures Inv(run[i])
  {
    if i > 0 {
      RunKeepsInv(run, i - 1);
      assert StepAt(run, i - 1);
      var step :| Enabled(run[i - 1], step) && run[i] == Do(run[i - 1], step);
      StepKeepsInv(run[i - 1], step);
    }
  }

  /** In every reachable state the links from the head lead through exactly the nodes pushed and not taken, newest push
      first, although a compare-exchange may succeed on a head that was taken and pushed again in between. No node is in
      the stack twice, and a node is in the stack or it has one owner. */
  lemma LinksLeadThroughContents(run: seq<State>, i: nat)
    requires Run(run) && i < |run|
    ensures
      var s := run[i];
      && s.head == First(s.contents) && Distinct(s.contents)
      && Linked(s.next, s.contents) && EndsWith(s.next, s.contents, None)
      && forall n :: n in s.owner ==> (n in s.contents <==> s.owner[n] == None)
  {
    RunKeepsInv(run, i);
  }

  /** Whether the stack was empty is what the pusher's successful exchange tells it. */
  lemma PushSeesEmptiness(run: seq<State>, i: nat, t: Tid)
    requires Run(run) && i < |run| && PcOf(run[i], t).Swapping? && run[i].head == PcOf(run[i], t).expected
    ensures PcOf(run[i], t).expected == None <==> run[i].contents == []
  {
    RunKeepsInv(run, i);
  }

  /** A successful reset returns the first of all nodes in the stack, linked to their end and now the caller's own. */
  lemma ResetTakesAll(run: seq<State>, i: nat, t: Tid)
    requires Run(run) && i < |run| && PcOf(run[i], t).Resetting? && run[i].head == PcOf(run[i], t).expected
    ensures
      var s := run[i];
      var s' := DoContinue(s, t, PcOf(s, t), false);
      && PcOf(s, t).expected == First(s.contents) && Linked(s'.next, s.contents) && EndsWith(s'.next, s.contents, None)
      && (forall n :: n in s.contents ==> Owns(s', t, n))
      && s'.head == None && forall n :: n in s'.owner ==> s'.owner[n].Some?
  {
    RunKeepsInv(run, i);
  }

  function Actor(step: Step): Tid {
    step.t
  }

  /** Nobody but its owner moves a node or writes its link. */
  lemma OwnedUntouched(s: State, step: Step, t: Tid, n: Node)
    requires Inv(s) && Enabled(s, step) && Actor(step) != t && Owns(s, t, n)
    ensures Owns(Do(s, step), t, n)
    ensures (n in Do(s, step).next <==> n in s.next) && (n in s.next ==> Do(s, step).next[n] == s.next[n])
  {
    assert PcOk(s, Actor(step));
    var pc := PcOf(s, Actor(step));
    if pc.Linking? {
      assert Owns(s, Actor(step), pc.chain[|pc.chain| - 1]);
    }
  }

  // ----- whole calls -----

  /** From the head the links lead through the list, and end. */
  ghost predicate Path(next: map<Node, Option<Node>>, head: Option<Node>, list: seq<Node>) {
    head == First(list) && Linked(next, list) && EndsWith(next, list, None)
  }

  /** The exchange that ends a push: the links from the new head lead through the whole chain and then through what the
      old head led through; the pusher owns none of the chain any more. */
  lemma SwapLinksChain(run: seq<State>, i: nat, t: Tid, list: seq<Node>)
    requires Run(run) && i < |run| && PcOf(run[i], t).Swapping? && run[i].head == PcOf(run[i], t).expected
    requires Path(run[i].next, run[i].head, list)
    ensures
      var chain, s' := PcOf(run[i], t).chain, DoContinue(run[i], t, PcOf(run[i], t), false);
      && PcOf(s', t).Idle? && Path(s'.next, s'.head, chain + list)
      && forall n :: n in chain ==> !Owns(s', t, n) && n in s'.contents
  {
    RunKeepsInv(run, i);
    var s := run[i];
    assert PcOk(s, t);
    LinkedJoined(s.next, PcOf(s, t).chain, list);
  }

  predicate Pushes(pc: Pc, chain: Chain) {
    (pc.Linking? || pc.Swapping?) && pc.chain == chain
  }

  /** The states of one call: its first step is taken in state i, and in state j it has returned. */
  ghost predicate Call(run: seq<State>, i: nat, j: nat, t: Tid, step: Step) {
    && Run(run) && i < j < |run| && Enabled(run[i], step) && Actor(step) == t && run[i + 1] == Do(run[i], step)
    && PcOf(run[j], t).Idle? && forall m :: i < m < j ==> !PcOf(run[m], t).Idle?
  }

  lemma PushStep(s: State, step: Step, t: Tid, chain: Chain)
    requires Enabled(s, step) && Pushes(PcOf(s, t), chain)
    ensures PcOf(Do(s, step), t).Idle? ==> Do(s, step).contents == chain + s.contents
    ensures !PcOf(Do(s, step), t).Idle? ==> Pushes(PcOf(Do(s, step), t), chain)
  {
  }

  lemma {:induction false} PushGoesOn(run: seq<State>, i: nat, j: nat, t: Tid, chain: Chain, m: nat)
    requires Call(run, i, j, t, Push(t, chain)) && i < m < j
    ensures Pushes(PcOf(run[m], t), chain)
    decreases m
  {
    if m > i + 1 {
      PushGoesOn(run, i, j, t, chain, m - 1);
      assert StepAt(run, m - 1);
      var step :| Enabled(run[m - 1], step) && run[m] == Do(run[m - 1], step);
      PushStep(run[m - 1], step, t, chain);
    }
  }

  /** A push that has returned has put its whole chain, in order, on top of the stack. */
  lemma PushReturnsStacked(run: seq<State>, i: nat, j: nat, t: Tid, chain: Chain)
    requires Call(run, i, j, t, Push(t, chain))
    ensures run[j].contents == chain + run[j - 1].contents && Path(run[j].next, run[j].head, run[j].contents)
    ensures forall n :: n in chain ==> !Owns(run[j], t, n)
  {
    assert PcOf(run[i + 1], t) == Linking(chain, run[i].head);
    PushGoesOn(run, i, j, t, chain, j - 1);
    assert StepAt(run, j - 1);
    var step :| Enabled(run[j - 1], step) && run[j] == Do(run[j - 1], step);
    PushStep(run[j - 1], step, t, chain);
    RunKeepsInv(run, j);
    forall n | n in chain
      ensures n in run[j].contents
    {
    }
  }

  /** With the step from state m a reset takes the stack. */
  ghost predicate ResetAt(run: seq<State>, m: nat, t: Tid) {
    && m + 1 < |run| && PcOf(run[m], t).Resetting? && run[m].head == PcOf(run[m], t).expected
    && run[m + 1] == DoContinue(run[m], t, PcOf(run[m], t), false)
  }

  lemma StepKeepsStacked(s: State, step: Step)
    requires Enabled(s, step)
    ensures
      || (forall n :: n in s.contents ==> n in Do(s, step).contents)
      || (step.Continue? && !step.spurious && PcOf(s, step.t).Resetting? && s.head == PcOf(s, step.t).expected)
  {
  }

  /** From then on each of its nodes is in the stack until a reset takes it. */
  lemma {:induction false} StackedUntilReset(run: seq<State>, j: nat, k: nat, n: Node)
    requires Run(run) && j <= k < |run| && n in run[j].contents
    requires forall m, t :: j <= m < k ==> !ResetAt(run, m, t)
    ensures n in run[k].contents
    decreases k
  {
    if k > j {
      StackedUntilReset(run, j, k - 1, n);
      assert StepAt(run, k - 1);
      var step :| Enabled(run[k - 1], step) && run[k] == Do(run[k - 1], step);
      StepKeepsStacked(run[k - 1], step);
      assert !ResetAt(run, k - 1, step.t);
    }
  }

  lemma ResetStep(s: State, step: Step, t: Tid)
    requires Enabled(s, step) && PcOf(s, t).Resetting?
    ensures PcOf(Do(s, step), t).Idle? || PcOf(Do(s, step), t).Resetting?
    ensures PcOf(Do(s, step), t).Idle? ==>
      s.head == PcOf(s, t).expected && Do(s, step) == DoContinue(s, t, PcOf(s, t), false)
  {
  }

  lemma {:induction false} ResetGoesOn(run: seq<State>, i: nat, j: nat, t: Tid, m: nat)
    requires Call(run, i, j, t, Reset(t)) && i < m < j
    ensures PcOf(run[m], t).Resetting?
    decreases m
  {
    if m > i + 1 {
      ResetGoesOn(run, i, j, t, m - 1);
      assert StepAt(run, m - 1);
      var step :| Enabled(run[m - 1], step) && run[m] == Do(run[m - 1], step);
      ResetStep(run[m - 1], step, t);
    }
  }

  /** A reset that has returned owns all that was in the stack at its last step, linked from the head that it returns.
      */
  lemma ResetReturnsAll(run: seq<State>, i: nat, j: nat, t: Tid)
    requires Call(run, i, j, t, Reset(t))
    ensures run[j].contents == [] && PcOf(run[j - 1], t).Resetting?
    ensures Path(run[j].next, PcOf(run[j - 1], t).expected, run[j - 1].contents)
    ensures forall n :: n in run[j - 1].contents ==> Owns(run[j], t, n)
  {
    assert PcOf(run[i + 1], t) == Resetting(run[i].head);
    ResetGoesOn(run, i, j, t, j - 1);
    assert StepAt(run, j - 1);
    var step :| Enabled(run[j - 1], step) && run[j] == Do(run[j - 1], step);
    ResetStep(run[j - 1], step, t);
    RunKeepsInv(run, j - 1);
  }

  // ----- calls that nobody disturbs -----

  /** A push that nobody disturbs returns after two more steps. */
  lemma QuietPush(s: State, t: Tid, chain: Chain)
    requires Inv(s) && Enabled(s, Push(t, chain))
    ensures
      var s1 := Do(s, Push(t, chain));
      Enabled(s1, Continue(t, false)) && Enabled(Do(s1, Continue(t, false)), Continue(t, false))
    ensures
      var s' := Do(Do(Do(s, Push(t, chain)), Continue(t, false)), Continue(t, false));
      PcOf(s', t).Idle? && s'.contents == chain + s.contents && s'.head == Some(chain[0])
  {
  }

  /** A reset that nobody disturbs returns after one more step. */
  lemma QuietReset(s: State, t: Tid)
    requires Inv(s) && Enabled(s, Reset(t))
    ensures Enabled(Do(s, Reset(t)), Continue(t, false))
    ensures
      var s' := Do(Do(s, Reset(t)), Continue(t, false));
      PcOf(s', t).Idle? && s'.contents == [] && s'.head == None && forall n :: n in s.contents ==> Owns(s', t, n)
  {
  }
}
