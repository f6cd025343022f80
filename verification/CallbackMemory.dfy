/** Which fire a list of `jQuery.Callbacks` remembers, and what `lock`, `disable` and `empty` leave of it. */
module CallbackMemory {
  import opened Common
  import opened Callbacks

  // ----- The fire a list remembers -----

  /** Memory holds the arguments of the fire served last. */
  ghost predicate LastRemembered(m: Machine) {
    m.memory.Some? ==> m.opts.memory && m.served != [] && m.memory.value == m.served[|m.served| - 1]
  }

  /** The operation makes the list forget: it disables the list, or stops the pass. */
  ghost predicate Forgets(m: Machine, op: Op) {
    op.Disable? || (op.Returned? && !op.result && m.opts.stopOnFalse)
  }

  /** What a list that is to remember `known` is to remember after one more operation. */
  ghost function Recall(m: Machine, op: Op, known: Option<Data>): Option<Data>
    requires Allowed(m, op)
  {
    var m' := Do(m, op);
    if |m'.served| > |m.served| then Some(m'.served[|m'.served| - 1])
    else if Forgets(m, op) then None
    else known
  }

  /** The same for a run: the arguments of the fire served last, unless the list was disabled or stopped since. */
  ghost function Recalled(m: Machine, ops: seq<Op>, known: Option<Data>): Option<Data>
    requires IsRun(m, ops)
    decreases |ops|
  {
    if ops == [] then known else Recalled(Do(m, ops[0]), ops[1..], Recall(m, ops[0], known))
  }

  /** The part of `m` that passes change: what is remembered, and of which fires. */
  ghost predicate Remembers(m: Machine, m': Machine) {
    && m'.opts == m.opts && m.served <= m'.served
    && m'.memory == if |m'.served| > |m.served| && m.opts.memory then Some(m'.served[|m'.served| - 1])
                    else if |m'.served| > |m.served| then None else m.memory
  }

  lemma {:induction false} NextRemembers(m: Machine, skipped: seq<Entry>, ran: seq<Entry>, pending: seq<Entry>,
                                         data: Data)
    ensures Remembers(m, Next(m, skipped, ran, pending, data))
    decreases QueueLength(m), 1
  {
    if pending == [] {
      FinishRemembers(m, skipped + ran);
    }
  }

  lemma {:induction false} FinishRemembers(m: Machine, list: seq<Entry>)
    ensures Remembers(m, Finish(m, list))
    decreases QueueLength(m), 0
  {
    if m.stack.Some? && m.stack.value != [] {
      ServingRemembers(m.(stack := Some(m.stack.value[1..])), list, m.stack.value[0]);
    }
  }

  /** The pass of a fire leaves the list with its arguments, or with those of a fire that waited for its end. */
  lemma {:induction false} ServingRemembers(m: Machine, list: seq<Entry>, data: Data)
    ensures var m' := Begin(Serving(m, data), list, data, 0);
            Remembers(m, m') && |m'.served| > |m.served|
    decreases QueueLength(m), 2
  {
    NextRemembers(Opened(Serving(m, data), data), list[..0], [], list[0..], data);
  }

  lemma {:induction false} AddRemembers(m: Machine, fns: seq<Fn>)
    requires m.memory.Some? ==> m.opts.memory
    ensures Remembers(m, AddOp(m, fns))
  {
    hide Next, Appended;
    if m.body.Idle? && m.memory.Some? {
      var list, more := m.body.list, Appended(m.opts.unique, m.body.list, fns, m.tickets);
      var n := m.(tickets := m.tickets + |more|);
      NextRemembers(Opened(n, m.memory.value), (list + more)[..|list|], [], (list + more)[|list|..], m.memory.value);
    }
  }

  lemma {:induction false} FireRemembers(m: Machine, data: Data)
    ensures Remembers(m, FireOp(m, data))
  {
    hide Begin;
    if m.body.Idle? && Accepts(m) {
      ServingRemembers(m.(accepted := m.accepted + [data]), m.body.list, data);
    }
  }

  lemma {:induction false} ReturnRemembers(m: Machine, result: bool)
    requires Running(m) && (m.body.Disabled? ==> m.memory == None)
    ensures Remembers(if Forgets(m, Returned(result)) then m.(memory := None) else m, ReturnOp(m, result))
  {
    hide Next, Finish;
    FinishRemembers(m.(memory := None), ListOf(m.body));
    FinishRemembers(m, ListOf(m.body));
    if m.body.Firing? {
      NextRemembers(m, m.body.skipped, m.body.ran, m.body.pending, m.body.data);
    }
  }

  lemma {:induction false} DoRecalls(m: Machine, op: Op)
    requires QueueOk(m) && LastRemembered(m) && Allowed(m, op)
    ensures Do(m, op).memory == if m.opts.memory then Recall(m, op, m.memory) else None
    ensures LastRemembered(Do(m, op)) && Do(m, op).opts == m.opts
  {
    hide AddOp, FireOp, ReturnOp, Queued, WithoutAll, Shrunk;
    match op
    case Add(fns) => AddRemembers(m, fns);
    case FireWith(data) => FireRemembers(m, data);
    case Returned(result) => ReturnRemembers(m, result);
    case Remove(_) =>
    case Lock =>
    case Disable =>
    case Empty =>
  }

  lemma {:induction false} RunRecalls(m: Machine, ops: seq<Op>, known: Option<Data>)
    requires Inv(m) && LastRemembered(m) && IsRun(m, ops) && m.memory == if m.opts.memory then known else None
    ensures After(m, ops).memory == if m.opts.memory then Recalled(m, ops, known) else None
    ensures LastRemembered(After(m, ops))
    decreases |ops|
  {
    hide LastRemembered, LogOk, InOrder, QueueOk, ServedOk, PassOk, Do, Recall;
    if ops != [] {
      var op := ops[0];
      DoInv(m, op);
      DoRecalls(m, op);
      RunRecalls(Do(m, op), ops[1..], Recall(m, op, known));
    }
  }

  /** In every run, a list created with `memory` remembers the arguments of the fire it served last, unless it was
      disabled or that pass was stopped since; a list created without the flag remembers nothing. */
  lemma {:induction false} MemoryIsLastFire(opts: Options, ops: seq<Op>)
    requires IsRun(Create(opts), ops)
    ensures var m := After(Create(opts), ops);
            && m.memory == (if opts.memory then Recalled(Create(opts), ops, None) else None)
            && (m.memory.Some? ==> m.served != [] && m.memory.value == m.served[|m.served| - 1])
  {
    hide Inv;
    CreateInv(opts);
    RunRecalls(Create(opts), ops, None);
  }

  lemma {:induction false} ReachableRemembers(m: Machine)
    requires Reachable(m)
    ensures LastRemembered(m)
  {
    hide Recalled;
    var opts, ops :| IsRun(Create(opts), ops) && After(Create(opts), ops) == m;
    CreateInv(opts);
    RunRecalls(Create(opts), ops, None);
  }

  // ----- Adding to a list between passes -----

  /** What an addition to an idle list calls: the first new entry, with the arguments of the fire served last, if
      the list remembers one; and nothing otherwise. */
  ghost predicate AddedLate(m: Machine, fns: seq<Fn>, m': Machine) {
    var more := Appended(m.opts.unique, ListOf(m.body), fns, m.tickets);
    if m.memory.None? || more == [] then m'.log == m.log
    else
      && m.served != [] && var data := m.served[|m.served| - 1];
      && m'.log == m.log + [Call(m.passes + 1, more[0], data)]
      && m'.body == Firing(ListOf(m.body), [more[0]], more[1..], more[0], data)
  }

  /** A callback added after the list has fired is called at once, with the arguments of the last fire. */
  lemma {:induction false} AddCallsWithLast(m: Machine, fns: seq<Fn>)
    requires Reachable(m) && m.body.Idle?
    ensures AddedLate(m, fns, AddOp(m, fns)) && (!m.opts.memory ==> AddOp(m, fns).log == m.log)
  {
    hide Appended, Reachable, LogOk, InOrder, ServedOk, PassOk;
    ReachableInv(m);
    ReachableRemembers(m);
    AddIdleCalls(m, fns);
  }

  lemma {:induction false} AddIdleCalls(m: Machine, fns: seq<Fn>)
    requires QueueOk(m) && LastRemembered(m) && m.body.Idle?
    ensures AddedLate(m, fns, AddOp(m, fns))
  {
    hide Appended, Queued;
    var list := m.body.list;
    var more := Appended(m.opts.unique, list, fns, m.tickets);
    if m.memory.Some? {
      assert (list + more)[..|list|] == list && (list + more)[|list|..] == more;
      var n := Opened(m.(tickets := m.tickets + |more|), m.memory.value);
      assert AddOp(m, fns) == Next(n, list, [], more, m.memory.value);
      if more == [] {
        assert AddOp(m, fns) == Finish(n, list + []);
      } else {
        assert [] + [more[0]] == [more[0]];
      }
    }
  }

  // ----- A list created `once` -----

  /** It queues no fire and takes on one at most. */
  ghost predicate OnceOk(m: Machine) {
    m.stack == None && (!m.fired ==> m.accepted == [] && m.memory == None) && |m.accepted| <= 1
  }

  /** Once it has fired it holds nothing between passes, or is disabled. */
  ghost predicate Spent(m: Machine) {
    m.fired && m.body.Idle? ==> m.memory.Some? && m.body.list == []
  }

  lemma {:induction false} NextOnce(m: Machine, skipped: seq<Entry>, ran: seq<Entry>, pending: seq<Entry>, data: Data)
    requires m.stack == None && m.fired && |m.accepted| <= 1
    ensures OnceOk(Next(m, skipped, ran, pending, data)) && OnceOk(Finish(m, skipped + ran))
    ensures Spent(Next(m, skipped, ran, pending, data)) && Spent(Finish(m, skipped + ran))
  {
  }

  lemma {:induction false} DoOnce(m: Machine, op: Op)
    requires QueueOk(m) && OnceOk(m) && Allowed(m, op)
    ensures OnceOk(Do(m, op)) && (Spent(m) && !op.Empty? ==> Spent(Do(m, op)))
  {
    hide Next, Finish, Appended, Queued, Shrunk;
    match op
    case Add(fns) =>
      if m.body.Idle? && m.memory.Some? {
        var list, more := m.body.list, Appended(m.opts.unique, m.body.list, fns, m.tickets);
        var n := Opened(m.(tickets := m.tickets + |more|), m.memory.value);
        NextOnce(n, (list + more)[..|list|], [], (list + more)[|list|..], m.memory.value);
      }
    case FireWith(data) =>
      if m.body.Idle? && Accepts(m) {
        var list := m.body.list;
        NextOnce(Opened(Serving(m.(accepted := m.accepted + [data]), data), data), list[..0], [], list[0..], data);
      }
    case Returned(result) =>
      var list := ListOf(m.body);
      assert list + [] == list;
      NextOnce(m.(memory := None), list, [], [], 0);
      NextOnce(m, list, [], [], 0);
      if m.body.Firing? {
        NextOnce(m, m.body.skipped, m.body.ran, m.body.pending, m.body.data);
      }
    case Remove(fns) => NothingLeft(fns);
    case Lock =>
    case Disable =>
    case Empty =>
  }

  lemma {:induction false} NothingLeft(fns: seq<Fn>)
    ensures WithoutAll([], fns) == []
  {
    WithoutAllMembers([], fns);
    NothingWithout(WithoutAll([], fns));
  }
  lemma {:induction false} RunOnce(m: Machine, ops: seq<Op>)
    requires Inv(m) && OnceOk(m) && IsRun(m, ops)
    ensures OnceOk(After(m, ops))
    ensures Spent(m) && (forall i :: 0 <= i < |ops| ==> !ops[i].Empty?) ==> Spent(After(m, ops))
    decreases |ops|
  {
    hide LogOk, InOrder, ServedOk, PassOk, QueueOk, OnceOk, Spent, Do;
    if ops != [] {
      DoInv(m, ops[0]);
      DoOnce(m, ops[0]);
      RunOnce(Do(m, ops[0]), ops[1..]);
    }
  }

  /** In every run a list created `once` takes on one fire at most, and after its pass it holds no callback: it is
      disabled, or remembers the fire. Only `empty` makes a disabled one a list again, which still takes no fire. */
  lemma {:induction false} OnceFiresOnce(opts: Options, ops: seq<Op>)
    requires opts.once && IsRun(Create(opts), ops)
    ensures var m := After(Create(opts), ops);
            && |m.accepted| <= 1 && |m.served| <= 1
            && (m.fired && !Running(m) && !m.body.Stuck? && (forall i :: 0 <= i < |ops| ==> !ops[i].Empty?) ==>
                  if m.memory.Some? then m.body == Idle([]) else m.body == Disabled(None))
  {
    CreateInv(opts);
    RunOnce(Create(opts), ops);
    RunInv(Create(opts), ops);
  }

  // ----- A locked list -----

  /** Nothing is queued and nothing will be taken on. */
  ghost predicate Closed(m: Machine) {
    m.stack == None && (m.fired || !Defined(m.body))
  }

  /** No fire was taken on or served. */
  ghost predicate NoFire(m: Machine, m': Machine) {
    m'.accepted == m.accepted && m'.served == m.served && m'.stack == m.stack && (m.fired ==> m'.fired)
  }

  lemma {:induction false} NextClosed(m: Machine, skipped: seq<Entry>, ran: seq<Entry>, pending: seq<Entry>, data: Data)
    requires m.stack == None
    ensures NoFire(m, Next(m, skipped, ran, pending, data)) && NoFire(m, Finish(m, skipped + ran))
  {
  }

  lemma {:induction false} DoClosed(m: Machine, op: Op)
    requires Closed(m) && Allowed(m, op) && (op.Empty? ==> m.fired)
    ensures Closed(Do(m, op)) && NoFire(m, Do(m, op))
  {
    hide Next, Finish, Appended, WithoutAll, Shrunk;
    match op
    case Add(fns) =>
      if m.body.Idle? && m.memory.Some? {
        var list, more := m.body.list, Appended(m.opts.unique, m.body.list, fns, m.tickets);
        var n := Opened(m.(tickets := m.tickets + |more|), m.memory.value);
        NextClosed(n, (list + more)[..|list|], [], (list + more)[|list|..], m.memory.value);
      }
    case Returned(result) =>
      var list := ListOf(m.body);
      assert list + [] == list;
      NextClosed(m.(memory := None), list, [], [], 0);
      NextClosed(m, list, [], [], 0);
      if m.body.Firing? {
        NextClosed(m, m.body.skipped, m.body.ran, m.body.pending, m.body.data);
      }
    case _ =>
  }

  lemma {:induction false} RunClosed(m: Machine, ops: seq<Op>)
    requires Closed(m) && IsRun(m, ops) && (m.fired || forall i :: 0 <= i < |ops| ==> !ops[i].Empty?)
    ensures Closed(After(m, ops)) && NoFire(m, After(m, ops))
    decreases |ops|
  {
    hide Closed, Do;
    if ops != [] {
      DoClosed(m, ops[0]);
      RunClosed(Do(m, ops[0]), ops[1..]);
    }
  }

  /** After `lock` no fire is taken on and none that was queued is served, whatever happens; only `empty` makes a
      list usable again that was locked before it had fired. */
  lemma {:induction false} LockedTakesNoFire(m: Machine, ops: seq<Op>)
    requires Reachable(m) && IsRun(LockOp(m), ops)
    requires m.fired || forall i :: 0 <= i < |ops| ==> !ops[i].Empty?
    ensures After(LockOp(m), ops).accepted == m.accepted && After(LockOp(m), ops).served == m.served
  {
    ReachableInv(m);
    ReachableRemembers(m);
    RunClosed(LockOp(m), ops);
  }

  /** A list that remembers goes on calling what is added to it between passes, with the same arguments as before
      it was locked. */
  lemma {:induction false} LockedStillCalls(m: Machine, fns: seq<Fn>)
    requires Reachable(m) && m.body.Idle? && m.memory.Some?
    ensures AddedLate(m, fns, AddOp(LockOp(m), fns))
  {
    hide Appended;
    ReachableInv(m);
    ReachableRemembers(m);
    LockInv(m);
    AddIdleCalls(LockOp(m), fns);
  }

  // ----- A disabled list -----

  /** The list is gone, and so is everything that could make a call. */
  ghost predicate Dead(m: Machine) {
    !Defined(m.body) && m.stack == None && m.memory == None
  }

  lemma {:induction false} RunDead(m: Machine, ops: seq<Op>)
    requires Dead(m) && IsRun(m, ops) && forall i :: 0 <= i < |ops| ==> !ops[i].Empty?
    ensures Dead(After(m, ops)) && NoFire(m, After(m, ops)) && After(m, ops).log == m.log
    decreases |ops|
  {
    hide Appended, WithoutAll, Shrunk;
    if ops != [] {
      RunDead(Do(m, ops[0]), ops[1..]);
    }
  }

  /** Once disabled, also by a callback in the middle of a pass, a list makes no further call and takes on no fire,
      whatever is added, fired or returned; only `empty` makes it usable again. */
  lemma {:induction false} DisabledCallsNothing(m: Machine, ops: seq<Op>)
    requires IsRun(DisableOp(m), ops) && forall i :: 0 <= i < |ops| ==> !ops[i].Empty?
    ensures After(DisableOp(m), ops).log == m.log
    ensures After(DisableOp(m), ops).accepted == m.accepted && After(DisableOp(m), ops).served == m.served
  {
    RunDead(DisableOp(m), ops);
  }

  /** So does a list that is locked when it remembers nothing. */
  lemma {:induction false} LockedEmptyHanded(m: Machine, ops: seq<Op>)
    requires m.memory.None? && IsRun(LockOp(m), ops) && forall i :: 0 <= i < |ops| ==> !ops[i].Empty?
    ensures After(LockOp(m), ops).log == m.log
    ensures After(LockOp(m), ops).accepted == m.accepted && After(LockOp(m), ops).served == m.served
  {
    RunDead(LockOp(m), ops);
  }

  // ----- An emptied list -----

  /** After `empty` no callback that was added before is called again, in the pass under way or later. */
  lemma {:induction false} EmptiedCallsOnlyNew(m: Machine, ops: seq<Op>, i: nat)
    requires Reachable(m) && IsRun(EmptyOp(m), ops) && |m.log| <= i < |After(EmptyOp(m), ops).log|
    ensures ListOf(EmptyOp(m).body) == [] && EmptyOp(m).log == m.log
    ensures After(EmptyOp(m), ops).log[i].entry.ticket >= m.tickets
  {
    hide Inv;
    ReachableInv(m);
    EmptyInv(m);
    RunGuarded(EmptyOp(m), ops, [After(EmptyOp(m), ops).log[i].entry.fn], m.tickets);
  }

  // ----- Removal in a pass -----

  /** The entries that are still to be called in the pass under way. */
  ghost function Turns(body: Body): seq<Entry> {
    match body
    case Firing(_, _, pending, _, _) => pending
    case Emptied(list, pass) => if pass.next < |list| then list[pass.next..] else []
    case _ => []
  }

  /** A removal takes the functions named out of what is still to be called, and leaves the rest its turn. */
  lemma {:induction false} RemoveKeepsTurns(m: Machine, fns: seq<Fn>)
    ensures Turns(RemoveOp(m, fns).body) == WithoutAll(Turns(m.body), fns)
  {
    hide WithoutAll;
    NothingLeft(fns);
    if m.body.Emptied? {
      var list, pass := m.body.list, m.body.pass;
      var cut := if pass.next < |list| then pass.next else |list|;
      assert list == list[..cut] + list[cut..];
      WithoutAllConcat(list[..cut], list[cut..], fns);
      var front, back := WithoutAll(list[..cut], fns), WithoutAll(list[cut..], fns);
      assert list[|list|..] == [] && (front + back)[|front|..] == back;
    }
  }

  /** When the callback returns, the first of them is called, and the others wait on. */
  lemma {:induction false} ReturnTakesTurn(m: Machine)
    requires Reachable(m) && (m.body.Firing? || m.body.Emptied?) && Turns(m.body) != []
    ensures var m' := ReturnOp(m, true);
            && |m'.log| == |m.log| + 1 && m'.log[..|m.log|] == m.log
            && m'.log[|m.log|].entry == Turns(m.body)[0] && m'.log[|m.log|].pass == m.passes
            && Turns(m'.body) == Turns(m.body)[1..]
  {
    hide LogOk, InOrder, QueueOk, ServedOk, Finish;
    ReachableInv(m);
  }
}
