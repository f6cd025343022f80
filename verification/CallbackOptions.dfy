/** What the flags of `jQuery.Callbacks` are for: `unique` and `stopOnFalse`. */
module CallbackOptions {
  import opened Common
  import opened Callbacks

  // ----- What an addition puts in the list -----

  /** Every function added is in the list afterwards. */
  lemma {:induction false} AppendedHas(unique: bool, list: seq<Entry>, fns: seq<Fn>, ticket: nat, f: Fn)
    requires f in fns || Has(list, f)
    ensures Has(list + Appended(unique, list, fns, ticket), f)
    decreases |fns|
  {
    if fns == [] {
      assert list + [] == list;
    } else if unique && Has(list, fns[0]) {
      AppendedHas(unique, list, fns[1..], ticket, f);
    } else {
      var e := Entry(fns[0], ticket);
      if f == fns[0] || Has(list, f) {
        HasMore(list, e, f);
      }
      AppendedHas(unique, list + [e], fns[1..], ticket + 1, f);
      var more := Appended(unique, list + [e], fns[1..], ticket + 1);
      assert list + ([e] + more) == list + [e] + more;
    }
  }

  lemma {:induction false} HasMore(list: seq<Entry>, e: Entry, f: Fn)
    requires e.fn == f || Has(list, f)
    ensures Has(list + [e], f)
  {
    if Has(list, f) {
      var i :| 0 <= i < |list| && list[i].fn == f;
      assert (list + [e])[i].fn == f;
    } else {
      assert (list + [e])[|list|].fn == f;
    }
  }

  /** Without the flag every function added gets an entry of its own, in the order given. */
  lemma {:induction false} AppendedEach(list: seq<Entry>, fns: seq<Fn>, ticket: nat)
    ensures |Appended(false, list, fns, ticket)| == |fns|
    ensures forall i :: 0 <= i < |fns| ==> Appended(false, list, fns, ticket)[i] == Entry(fns[i], ticket + i)
    decreases |fns|
  {
    if fns != [] {
      AppendedEach(list + [Entry(fns[0], ticket)], fns[1..], ticket + 1);
    }
  }

  /** With the flag a function that is there already gets none. */
  lemma {:induction false} AppendedOnce(list: seq<Entry>, fns: seq<Fn>, ticket: nat)
    requires OneEach(list)
    ensures OneEach(list + Appended(true, list, fns, ticket))
    decreases |fns|
  {
    if fns == [] {
      assert list + [] == list;
    } else if Has(list, fns[0]) {
      AppendedOnce(list, fns[1..], ticket);
    } else {
      var e := Entry(fns[0], ticket);
      AppendedOnce(list + [e], fns[1..], ticket + 1);
      var more := Appended(true, list + [e], fns[1..], ticket + 1);
      assert list + ([e] + more) == list + [e] + more;
    }
  }

  /** After `add` each function named is in the list: where it was, or behind everything else. A list that
      remembers its last fire calls the first new entry at once and keeps the others pending. */
  lemma {:induction false} AddTakes(m: Machine, fns: seq<Fn>, f: Fn)
    requires Defined(m.body) && f in fns
    ensures var list, m' := ListOf(m.body), AddOp(m, fns);
            var more := Appended(m.opts.unique, list, fns, m.tickets);
            && Has(list + more, f)
            && if !m.body.Idle? || m.memory.None? then ListOf(m'.body) == list + more && m'.log == m.log
               else more != [] ==>
                 && m'.body == Firing(list, [more[0]], more[1..], more[0], m.memory.value)
                 && m'.log == m.log + [Call(m.passes + 1, more[0], m.memory.value)]
  {
    hide Appended, Finish;
    var list := ListOf(m.body);
    var more := Appended(m.opts.unique, list, fns, m.tickets);
    AppendedHas(m.opts.unique, list, fns, m.tickets, f);
    if !m.body.Idle? || m.memory.None? {
      AddAppends(m, fns);
    } else {
      assert (list + more)[..|list|] == list && (list + more)[|list|..] == more;
      var n := Opened(m.(tickets := m.tickets + |more|), m.memory.value);
      assert AddOp(m, fns) == Next(n, list, [], more, m.memory.value);
    }
  }

  // ----- Only what was added is called -----

  /** Every entry, and every call made, is of one of these functions. */
  ghost predicate Known(m: Machine, fns: set<Fn>) {
    && (forall e :: e in ListOf(m.body) ==> e.fn in fns)
    && (forall c :: c in m.log ==> c.entry.fn in fns)
  }

  lemma {:induction false} NextKnown(m: Machine, skipped: seq<Entry>, ran: seq<Entry>, pending: seq<Entry>, data: Data,
                                     fns: set<Fn>)
    requires Known(m.(body := Idle(skipped + ran + pending)), fns)
    ensures Known(Next(m, skipped, ran, pending, data), fns)
    decreases QueueLength(m), 1
  {
    if pending == [] {
      assert skipped + ran + pending == skipped + ran;
      FinishKnown(m, skipped + ran, fns);
    } else {
      assert skipped + (ran + [pending[0]]) + pending[1..] == skipped + ran + pending;
      assert pending[0] in skipped + ran + pending;
    }
  }

  lemma {:induction false} FinishKnown(m: Machine, list: seq<Entry>, fns: set<Fn>)
    requires Known(m.(body := Idle(list)), fns)
    ensures Known(Finish(m, list), fns)
    decreases QueueLength(m), 0
  {
    if m.stack.Some? && m.stack.value != [] {
      BeginKnown(Serving(m.(stack := Some(m.stack.value[1..])), m.stack.value[0]), list, m.stack.value[0], 0, fns);
    }
  }

  lemma {:induction false} BeginKnown(m: Machine, list: seq<Entry>, data: Data, start: nat, fns: set<Fn>)
    requires start <= |list| && Known(m.(body := Idle(list)), fns)
    ensures Known(Begin(m, list, data, start), fns)
    decreases QueueLength(m), 2
  {
    assert list[..start] + [] + list[start..] == list;
    NextKnown(Opened(m, data), list[..start], [], list[start..], data, fns);
  }

  lemma {:induction false} AppendedKnown(unique: bool, list: seq<Entry>, fns: seq<Fn>, ticket: nat)
    ensures forall e :: e in Appended(unique, list, fns, ticket) ==> e.fn in fns
    decreases |fns|
  {
    if fns != [] {
      AppendedKnown(unique, list, fns[1..], ticket);
      AppendedKnown(unique, list + [Entry(fns[0], ticket)], fns[1..], ticket + 1);
    }
  }

  lemma {:induction false} AddKnown(m: Machine, more: seq<Fn>, fns: set<Fn>)
    requires Known(m, fns) && forall f :: f in more ==> f in fns
    ensures Known(AddOp(m, more), fns)
  {
    hide Appended, Begin;
    if Defined(m.body) {
      var list := ListOf(m.body);
      var added := Appended(m.opts.unique, list, more, m.tickets);
      AppendedKnown(m.opts.unique, list, more, m.tickets);
      if m.body.Idle? && m.memory.Some? {
        BeginKnown(m.(tickets := m.tickets + |added|), list + added, m.memory.value, |list|, fns);
      } else {
        AddAppends(m, more);
      }
    }
  }

  lemma {:induction false} RemoveKnown(m: Machine, gone: seq<Fn>, fns: set<Fn>)
    requires Known(m, fns)
    ensures Known(RemoveOp(m, gone), fns)
  {
    hide WithoutAll, Shrunk, ListOf;
    RemoveFilters(m, gone);
  }

  lemma {:induction false} ReturnKnown(m: Machine, result: bool, fns: set<Fn>)
    requires Known(m, fns) && Running(m)
    ensures Known(ReturnOp(m, result), fns)
  {
    hide Next, Finish;
    FinishKnown(m.(memory := None), ListOf(m.body), fns);
    FinishKnown(m, ListOf(m.body), fns);
    if m.body.Firing? {
      NextKnown(m, m.body.skipped, m.body.ran, m.body.pending, m.body.data, fns);
    }
  }

  lemma {:induction false} DoKnown(m: Machine, op: Op, fns: set<Fn>)
    requires Known(m, fns) && Allowed(m, op) && (op.Add? ==> forall f :: f in op.fns ==> f in fns)
    ensures Known(Do(m, op), fns)
  {
    hide AddOp, RemoveOp, ReturnOp, Begin;
    match op
    case Add(more) => AddKnown(m, more, fns);
    case Remove(gone) => RemoveKnown(m, gone, fns);
    case FireWith(data) =>
      if m.body.Idle? {
        BeginKnown(Serving(m.(accepted := m.accepted + [data]), data), m.body.list, data, 0, fns);
      }
    case Lock =>
    case Disable =>
    case Empty =>
    case Returned(result) => ReturnKnown(m, result, fns);
  }

  /** The functions that a run adds. */
  ghost function Added(ops: seq<Op>): set<Fn> {
    if ops == [] then {} else (if ops[0].Add? then set f | f in ops[0].fns else {}) + Added(ops[1..])
  }

  lemma {:induction false} RunKnown(m: Machine, ops: seq<Op>, fns: set<Fn>)
    requires Known(m, fns) && IsRun(m, ops) && Added(ops) <= fns
    ensures Known(After(m, ops), fns)
    decreases |ops|
  {
    hide Known, Do;
    if ops != [] {
      DoKnown(m, ops[0], fns);
      RunKnown(Do(m, ops[0]), ops[1..], fns);
    }
  }

  /** A list calls nothing but what was added to it. */
  lemma {:induction false} OnlyAddedCalled(opts: Options, ops: seq<Op>, i: nat)
    requires IsRun(Create(opts), ops) && i < |After(Create(opts), ops).log|
    ensures After(Create(opts), ops).log[i].entry.fn in Added(ops)
  {
    RunKnown(Create(opts), ops, Added(ops));
  }

  // ----- A unique list -----

  /** No function has two entries. */
  ghost predicate OneEach(list: seq<Entry>) {
    forall a, b :: a in list && b in list && a.fn == b.fn ==> a == b
  }

  /** What operations other than an addition and a removal leave of a list. */
  ghost predicate Keeps(m: Machine, list: seq<Entry>) {
    ListOf(m.body) == list || ListOf(m.body) == []
  }

  lemma {:induction false} NextKeeps(m: Machine, skipped: seq<Entry>, ran: seq<Entry>, pending: seq<Entry>, data: Data)
    ensures Keeps(Next(m, skipped, ran, pending, data), skipped + ran + pending)
    decreases QueueLength(m), 1
  {
    if pending == [] {
      assert skipped + ran + pending == skipped + ran;
      FinishKeeps(m, skipped + ran);
    } else {
      assert skipped + (ran + [pending[0]]) + pending[1..] == skipped + ran + pending;
    }
  }

  lemma {:induction false} FinishKeeps(m: Machine, list: seq<Entry>)
    ensures Keeps(Finish(m, list), list)
    decreases QueueLength(m), 0
  {
    if m.stack.Some? && m.stack.value != [] {
      BeginKeeps(Serving(m.(stack := Some(m.stack.value[1..])), m.stack.value[0]), list, m.stack.value[0], 0);
    }
  }

  lemma {:induction false} BeginKeeps(m: Machine, list: seq<Entry>, data: Data, start: nat)
    requires start <= |list|
    ensures Keeps(Begin(m, list, data, start), list)
    decreases QueueLength(m), 2
  {
    assert list[..start] + [] + list[start..] == list;
    NextKeeps(Opened(m, data), list[..start], [], list[start..], data);
  }

  lemma {:induction false} AddOneEach(m: Machine, fns: seq<Fn>)
    requires m.opts.unique && OneEach(ListOf(m.body))
    ensures OneEach(ListOf(AddOp(m, fns).body))
  {
    hide Appended, Begin, OneEach;
    if Defined(m.body) {
      var list := ListOf(m.body);
      AppendedOnce(list, fns, m.tickets);
      if m.body.Idle? && m.memory.Some? {
        var more := Appended(true, list, fns, m.tickets);
        BeginKeeps(m.(tickets := m.tickets + |more|), list + more, m.memory.value, |list|);
        NoneTwice();
      } else {
        AddAppends(m, fns);
      }
    }
  }

  lemma {:induction false} NoneTwice()
    ensures OneEach([])
  {
  }

  lemma {:induction false} DoOneEach(m: Machine, op: Op)
    requires m.opts.unique && OneEach(ListOf(m.body)) && Allowed(m, op)
    ensures OneEach(ListOf(Do(m, op).body))
  {
    hide Begin, Next, Finish, AddOp, RemoveOp, OneEach;
    NoneTwice();
    match op
    case Add(fns) => AddOneEach(m, fns);
    case Remove(fns) => RemoveOneEach(m, fns);
    case FireWith(data) =>
      if m.body.Idle? {
        BeginKeeps(Serving(m.(accepted := m.accepted + [data]), data), m.body.list, data, 0);
      }
    case Lock =>
    case Disable =>
    case Empty =>
    case Returned(result) =>
      FinishKeeps(m.(memory := None), ListOf(m.body));
      FinishKeeps(m, ListOf(m.body));
      if m.body.Firing? {
        NextKeeps(m, m.body.skipped, m.body.ran, m.body.pending, m.body.data);
      }
  }

  lemma {:induction false} RemoveOneEach(m: Machine, fns: seq<Fn>)
    requires OneEach(ListOf(m.body))
    ensures OneEach(ListOf(RemoveOp(m, fns).body))
  {
    hide RemoveOp, ListOf;
    RemoveFilters(m, fns);
  }

  lemma {:induction false} RunOneEach(m: Machine, ops: seq<Op>)
    requires Inv(m) && m.opts.unique && OneEach(ListOf(m.body)) && IsRun(m, ops)
    ensures OneEach(ListOf(After(m, ops).body)) && After(m, ops).opts == m.opts
    decreases |ops|
  {
    hide Inv, Do, OneEach;
    if ops != [] {
      DoInv(m, ops[0]);
      DoGrows(m, ops[0]);
      DoOneEach(m, ops[0]);
      RunOneEach(Do(m, ops[0]), ops[1..]);
    }
  }

  /** A list created `unique` never holds two entries of one function, whatever is done to it and whenever. */
  lemma {:induction false} UniqueList(opts: Options, ops: seq<Op>, i: nat, j: nat)
    requires opts.unique && IsRun(Create(opts), ops)
    requires i < j < |ListOf(After(Create(opts), ops).body)|
    ensures var list := ListOf(After(Create(opts), ops).body); list[i].fn != list[j].fn
  {
    hide LogOk, QueueOk, ServedOk, PassOk, ListOf;
    var m := Create(opts);
    CreateInv(opts);
    assert OneEach(ListOf(m.body)) by {
      EmptyAtFirst(opts);
      NoneTwice();
    }
    RunInv(m, ops);
    RunOneEach(m, ops);
    var list := ListOf(After(m, ops).body);
    assert list[i] in list && list[j] in list && list[i].ticket < list[j].ticket;
  }

  lemma {:induction false} EmptyAtFirst(opts: Options)
    ensures ListOf(Create(opts).body) == []
  {
  }

  // ----- Stopping on false -----

  /** No call from the n-th on belongs to the pass `pass` or an earlier one, and none will. */
  ghost predicate Past(m: Machine, n: nat, pass: nat) {
    && n <= |m.log| && pass <= m.passes && (Running(m) ==> pass < m.passes)
    && forall i :: n <= i < |m.log| ==> pass < m.log[i].pass
  }

  lemma {:induction false} NextPast(m: Machine, skipped: seq<Entry>, ran: seq<Entry>, pending: seq<Entry>, data: Data,
                                    n: nat, pass: nat)
    requires Past(m, n, pass) && pass < m.passes
    ensures Past(Next(m, skipped, ran, pending, data), n, pass)
    decreases QueueLength(m), 1
  {
    if pending == [] {
      FinishPast(m, skipped + ran, n, pass);
    }
  }

  /** Whatever is left of the pass, ending it leads past it. */
  lemma {:induction false} FinishPast(m: Machine, list: seq<Entry>, n: nat, pass: nat)
    requires Past(m.(body := Idle(list)), n, pass)
    ensures Past(Finish(m, list), n, pass)
    decreases QueueLength(m), 0
  {
    if m.stack.Some? && m.stack.value != [] {
      var data := m.stack.value[0];
      BeginPast(Serving(m.(stack := Some(m.stack.value[1..])), data), list, data, 0, n, pass);
    }
  }

  lemma {:induction false} BeginPast(m: Machine, list: seq<Entry>, data: Data, start: nat, n: nat, pass: nat)
    requires start <= |list| && Past(m.(body := Idle(list)), n, pass)
    ensures Past(Begin(m, list, data, start), n, pass)
    decreases QueueLength(m), 2
  {
    NextPast(Opened(m, data), list[..start], [], list[start..], data, n, pass);
  }

  lemma {:induction false} DoPast(m: Machine, op: Op, n: nat, pass: nat)
    requires Past(m, n, pass) && Allowed(m, op)
    ensures Past(Do(m, op), n, pass)
  {
    hide Begin, Next, Finish, Appended, WithoutAll;
    match op
    case Add(fns) =>
      if m.body.Idle? && m.memory.Some? {
        var list, more := m.body.list, Appended(m.opts.unique, m.body.list, fns, m.tickets);
        BeginPast(m.(tickets := m.tickets + |more|), list + more, m.memory.value, |list|, n, pass);
      }
    case Remove(_) =>
    case FireWith(data) =>
      if m.body.Idle? {
        BeginPast(Serving(m.(accepted := m.accepted + [data]), data), m.body.list, data, 0, n, pass);
      }
    case Lock =>
    case Disable =>
    case Empty =>
    case Returned(_) =>
      FinishPast(m.(memory := None), ListOf(m.body), n, pass);
      FinishPast(m, ListOf(m.body), n, pass);
      if m.body.Firing? {
        NextPast(m, m.body.skipped, m.body.ran, m.body.pending, m.body.data, n, pass);
      }
  }

  lemma {:induction false} RunPast(m: Machine, ops: seq<Op>, n: nat, pass: nat)
    requires Past(m, n, pass) && IsRun(m, ops)
    ensures Past(After(m, ops), n, pass)
    decreases |ops|
  {
    hide Past, Do;
    if ops != [] {
      DoPast(m, ops[0], n, pass);
      RunPast(Do(m, ops[0]), ops[1..], n, pass);
    }
  }

  /** A callback returns false to a list created with `stopOnFalse`: whatever happens afterwards, the pass it was
      called in makes no further call. */
  lemma {:induction false} StoppedPass(m: Machine, ops: seq<Op>, i: nat)
    requires m.opts.stopOnFalse && Running(m) && IsRun(ReturnOp(m, false), ops)
    requires |m.log| <= i < |After(ReturnOp(m, false), ops).log|
    ensures m.passes < After(ReturnOp(m, false), ops).log[i].pass
  {
    hide Finish, Next;
    FinishPast(m.(memory := None), ListOf(m.body), |m.log|, m.passes);
    RunPast(ReturnOp(m, false), ops, |m.log|, m.passes);
  }

  /** Nothing runs, nothing is queued and nothing is remembered. */
  ghost predicate Silent(m: Machine) {
    !Running(m) && QueueLength(m) == 0 && m.memory.None?
  }

  /** When no other fire waits, the list forgets the arguments as well: until it is fired again no operation
      makes a call, not even the addition of a callback. */
  lemma {:induction false} StoppedList(m: Machine, ops: seq<Op>)
    requires Reachable(m) && m.opts.stopOnFalse && Running(m) && QueueLength(m) == 0
    requires IsRun(ReturnOp(m, false), ops)
    requires forall i :: 0 <= i < |ops| ==> !ops[i].FireWith?
    ensures After(ReturnOp(m, false), ops).log == m.log && After(ReturnOp(m, false), ops).memory.None?
  {
    ReachableInv(m);
    assert Silent(ReturnOp(m, false)) && ReturnOp(m, false).log == m.log;
    RunSilent(ReturnOp(m, false), ops);
  }

  lemma {:induction false} RunSilent(m: Machine, ops: seq<Op>)
    requires Silent(m) && IsRun(m, ops) && forall i :: 0 <= i < |ops| ==> !ops[i].FireWith?
    ensures Silent(After(m, ops)) && After(m, ops).log == m.log
    decreases |ops|
  {
    hide Do, Silent;
    if ops != [] {
      DoSilent(m, ops[0]);
      RunSilent(Do(m, ops[0]), ops[1..]);
    }
  }

  lemma {:induction false} DoSilent(m: Machine, op: Op)
    requires Silent(m) && Allowed(m, op) && !op.FireWith?
    ensures Silent(Do(m, op)) && Do(m, op).log == m.log
  {
    hide Appended, WithoutAll, Begin;
  }
}
