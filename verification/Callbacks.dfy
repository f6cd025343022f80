/** The re-entrant callback list of debian/jquery-1.9.1.js (jQuery.Callbacks).
    User callbacks are not modelled as code: a pass stops at every call, any operations may follow
    (they are what the callback does), and `Returned` resumes the pass. */
module Callbacks {
  import opened Common

  /** Functions and argument lists are compared by identity only. */
  type Fn = nat
  type Data = nat

  datatype Options = Options(once: bool, memory: bool, unique: bool, stopOnFalse: bool)

  /** A list element. The ticket numbers additions; no branch reads it. */
  datatype Entry = Entry(fn: Fn, ticket: nat)

  datatype Call = Call(pass: nat, entry: Entry, data: Data)

  /** The variables of a pass under way: the index to go on with, the length it was told, the entry being
      called and the arguments. */
  datatype Pass = Pass(next: nat, length: nat, current: Entry, data: Data)

  /** The list, split while a pass is under way into what the pass skips, what has had its turn and what is still
      to come. A list emptied in the middle of a pass keeps index and length instead, and is stuck once a call
      of a missing entry has thrown: it counts as firing, but no pass is there to go on. */
  datatype Body =
    | Disabled(during: Option<Pass>)
    | Idle(list: seq<Entry>)
    | Firing(skipped: seq<Entry>, ran: seq<Entry>, pending: seq<Entry>, current: Entry, data: Data)
    | Emptied(list: seq<Entry>, pass: Pass)
    | Stuck(lost: Option<seq<Entry>>)

  /** `stack` is None where the source has false or undefined. The last six fields are history: additions, passes
      and calls made, fires accepted, and fires served with the pass that serves each. */
  datatype Machine = Machine(
    opts: Options,
    body: Body,
    stack: Option<seq<Data>>,
    memory: Option<Data>,
    fired: bool,
    tickets: nat,
    passes: nat,
    log: seq<Call>,
    accepted: seq<Data>,
    served: seq<Data>,
    servedIn: seq<nat>)

  datatype Op =
    | Add(fns: seq<Fn>) | Remove(fns: seq<Fn>) | FireWith(data: Data)
    | Lock | Disable | Empty
    | Returned(result: bool)

  function Create(opts: Options): Machine {
    Machine(opts, Idle([]), if opts.once then None else Some([]), None, false, 0, 0, [], [], [], [])
  }

  // ----- What each operation does to the split list -----

  function Without(s: seq<Entry>, fn: Fn): seq<Entry> {
    if s == [] then []
    else Without(s[..|s| - 1], fn) + if s[|s| - 1].fn == fn then [] else [s[|s| - 1]]
  }

  function WithoutAll(s: seq<Entry>, fns: seq<Fn>): seq<Entry>
    decreases |fns|
  {
    if fns == [] then s else WithoutAll(Without(s, fns[0]), fns[1..])
  }

  predicate Has(s: seq<Entry>, fn: Fn) {
    exists i :: 0 <= i < |s| && s[i].fn == fn
  }

  /** The entries an addition appends to `list`. */
  function Appended(unique: bool, list: seq<Entry>, fns: seq<Fn>, ticket: nat): seq<Entry>
    decreases |fns|
  {
    if fns == [] then []
    else if unique && Has(list, fns[0]) then Appended(unique, list, fns[1..], ticket)
    else
      var e := Entry(fns[0], ticket);
      [e] + Appended(unique, list + [e], fns[1..], ticket + 1)
  }

  function ListOf(body: Body): seq<Entry> {
    match body
    case Disabled(_) => []
    case Idle(list) => list
    case Firing(skipped, ran, pending, _, _) => skipped + ran + pending
    case Emptied(list, _) => list
    case Stuck(lost) => if lost.Some? then lost.value else []
  }

  ghost function QueueLength(m: Machine): nat {
    if m.stack.Some? then |m.stack.value| else 0
  }

  /** `fire` up to its loop */
  function Opened(m: Machine, data: Data): Machine {
    m.(memory := if m.opts.memory then Some(data) else None, fired := true, passes := m.passes + 1)
  }

  /** Starts a pass over the list from position `start`. */
  function Begin(m: Machine, list: seq<Entry>, data: Data, start: nat): Machine
    requires start <= |list|
    decreases QueueLength(m), 2
  {
    Next(Opened(m, data), list[..start], [], list[start..], data)
  }

  /** Calls the next pending callback or ends the pass. */
  function Next(m: Machine, skipped: seq<Entry>, ran: seq<Entry>, pending: seq<Entry>, data: Data): Machine
    decreases QueueLength(m), 1
  {
    if pending == [] then Finish(m, skipped + ran)
    else m.(body := Firing(skipped, ran + [pending[0]], pending[1..], pending[0], data),
            log := m.log + [Call(m.passes, pending[0], data)])
  }

  /** The same for a list that was emptied: an index within the length it was told may find no entry. */
  function Resume(m: Machine, list: seq<Entry>, pass: Pass): Machine
    decreases QueueLength(m), 1
  {
    if pass.next >= pass.length then Finish(m, list)
    else if pass.next < |list| then
      m.(body := Emptied(list, pass.(next := pass.next + 1, current := list[pass.next])),
         log := m.log + [Call(m.passes, list[pass.next], pass.data)])
    else m.(body := Stuck(Some(list)))
  }

  /** History: the next pass serves a fire. */
  function Serving(m: Machine, data: Data): Machine {
    m.(served := m.served + [data], servedIn := m.servedIn + [m.passes + 1])
  }

  /** After a pass: serve the next queued fire, or empty or disable a list that cannot fire again. */
  function Finish(m: Machine, list: seq<Entry>): Machine
    decreases QueueLength(m), 0
  {
    if m.stack.Some? then
      if m.stack.value == [] then m.(body := Idle(list))
      else Begin(Serving(m.(stack := Some(m.stack.value[1..])), m.stack.value[0]), list, m.stack.value[0], 0)
    else if m.memory.Some? then m.(body := Idle([]))
    else m.(body := Disabled(None))
  }

  /** A callback is being called. */
  predicate Running(m: Machine) {
    m.body.Firing? || m.body.Emptied? || (m.body.Disabled? && m.body.during.Some?)
  }

  /** `list` is not undefined. */
  predicate Defined(body: Body) {
    !body.Disabled? && body != Stuck(None)
  }

  /** The variables of the pass under way. */
  function PassOf(body: Body): Pass
    requires body.Firing?
  {
    Pass(|body.skipped| + |body.ran|, |body.skipped| + |body.ran| + |body.pending|, body.current, body.data)
  }

  function AddOp(m: Machine, fns: seq<Fn>): Machine {
    if !Defined(m.body) then m
    else
      var list := ListOf(m.body);
      var more := Appended(m.opts.unique, list, fns, m.tickets);
      var m' := m.(tickets := m.tickets + |more|);
      match m.body
      case Idle(_) =>
        if m.memory.Some? then Begin(m', list + more, m.memory.value, |list|) else m'.(body := Idle(list + more))
      case Firing(_, _, pending, _, _) => m'.(body := m.body.(pending := pending + more))
      case Emptied(_, pass) => m'.(body := Emptied(list + more, pass.(length := |list + more|)))
      case Stuck(_) => m'.(body := Stuck(Some(list + more)))
  }

  /** The variables of a pass over an emptied list after a removal: every removed entry before the index moves
      it, and every removed entry shortens the length. */
  function Shrunk(pass: Pass, list: seq<Entry>, fns: seq<Fn>): Pass {
    var cut := if pass.next < |list| then pass.next else |list|;
    pass.(next := |WithoutAll(list[..cut], fns)| + pass.next - cut,
          length := if list == [] then pass.length else |WithoutAll(list, fns)|)
  }

  function RemoveOp(m: Machine, fns: seq<Fn>): Machine {
    match m.body
    case Disabled(_) => m
    case Idle(list) => m.(body := Idle(WithoutAll(list, fns)))
    case Firing(skipped, ran, pending, _, _) =>
      m.(body := m.body.(skipped := WithoutAll(skipped, fns), ran := WithoutAll(ran, fns),
                         pending := WithoutAll(pending, fns)))
    case Emptied(list, pass) => m.(body := Emptied(WithoutAll(list, fns), Shrunk(pass, list, fns)))
    case Stuck(lost) => if lost.None? then m else m.(body := Stuck(Some(WithoutAll(lost.value, fns))))
  }

  /** A fire is taken on: `list && ( !fired || stack )` */
  predicate Accepts(m: Machine) {
    Defined(m.body) && (!m.fired || m.stack.Some?)
  }

  function FireOp(m: Machine, data: Data): Machine {
    if !Accepts(m) then m
    else if m.body.Idle? then Begin(Serving(m.(accepted := m.accepted + [data]), data), m.body.list, data, 0)
    else if m.stack.Some? then m.(stack := Some(m.stack.value + [data]), accepted := m.accepted + [data])
    else m
  }

  function DisableOp(m: Machine): Machine {
    m.(stack := None, memory := None,
       body := match m.body
               case Disabled(_) => m.body
               case Idle(_) => Disabled(None)
               case Firing(_, _, _, _, _) => Disabled(Some(PassOf(m.body)))
               case Emptied(_, pass) => Disabled(Some(pass))
               case Stuck(_) => Stuck(None))
  }

  function LockOp(m: Machine): Machine {
    if m.memory.None? then DisableOp(m) else m.(stack := None)
  }

  /** `list = []`, and nothing else: not even the length of the pass under way. */
  function EmptyOp(m: Machine): Machine {
    m.(body := match m.body
               case Disabled(during) => if during.Some? then Emptied([], during.value) else Idle([])
               case Idle(_) => Idle([])
               case Firing(_, _, _, _, _) => Emptied([], PassOf(m.body))
               case Emptied(_, pass) => Emptied([], pass)
               case Stuck(_) => Stuck(Some([])))
  }

  function ReturnOp(m: Machine, result: bool): Machine
    requires Running(m)
  {
    match m.body
    case Disabled(_) => m.(body := Disabled(None))
    case Firing(skipped, ran, pending, _, data) =>
      if !result && m.opts.stopOnFalse then Finish(m.(memory := None), skipped + ran + pending)
      else Next(m, skipped, ran, pending, data)
    case Emptied(list, pass) =>
      if !result && m.opts.stopOnFalse then Finish(m.(memory := None), list) else Resume(m, list, pass)
  }

  /** Callbacks return only while one runs. */
  predicate Allowed(m: Machine, op: Op) {
    op.Returned? ==> Running(m)
  }

  function Do(m: Machine, op: Op): Machine
    requires Allowed(m, op)
  {
    match op
    case Add(fns) => AddOp(m, fns)
    case Remove(fns) => RemoveOp(m, fns)
    case FireWith(data) => FireOp(m, data)
    case Lock => LockOp(m)
    case Disable => DisableOp(m)
    case Empty => EmptyOp(m)
    case Returned(result) => ReturnOp(m, result)
  }

  // ----- What holds in every run -----

  ghost predicate IsRun(m: Machine, ops: seq<Op>)
    decreases |ops|
  {
    ops != [] ==> Allowed(m, ops[0]) && IsRun(Do(m, ops[0]), ops[1..])
  }

  ghost function After(m: Machine, ops: seq<Op>): Machine
    requires IsRun(m, ops)
    decreases |ops|
  {
    if ops == [] then m else After(Do(m, ops[0]), ops[1..])
  }

  /** Entries stand in the order in which they were added. */
  ghost predicate InOrder(list: seq<Entry>, tickets: nat) {
    && (forall i, j :: 0 <= i < j < |list| ==> list[i].ticket < list[j].ticket)
    && (forall i :: 0 <= i < |list| ==> list[i].ticket < tickets)
  }

  /** Calls of one pass follow the order of the list, so none is repeated, and passes do not overlap. */
  ghost predicate LogOk(m: Machine) {
    && (forall i, j :: 0 <= i < j < |m.log| ==>
          m.log[i].pass < m.log[j].pass ||
          (m.log[i].pass == m.log[j].pass && m.log[i].entry.ticket < m.log[j].entry.ticket &&
           m.log[i].data == m.log[j].data))
    && (forall i :: 0 <= i < |m.log| ==> m.log[i].pass <= m.passes && m.log[i].entry.ticket < m.tickets)
  }

  /** Fires are served in the order in which they were accepted. */
  ghost predicate QueueOk(m: Machine) {
    && Queued(m)
    && (!m.fired ==> m.accepted == [])
    && (m.body.Idle? && m.stack.Some? ==> m.stack.value == [])
    && (!Defined(m.body) ==> m.stack == None && m.memory == None)
    && (Running(m) || m.body.Stuck? ==> m.fired)
  }

  ghost predicate Queued(m: Machine) {
    m.served <= m.accepted && (m.stack.Some? ==> m.accepted == m.served + m.stack.value)
  }

  /** Fires are served by passes of their own, in order; every call of such a pass is made with the arguments of
      its fire, and the pass skips nothing. */
  ghost predicate ServedOk(m: Machine) {
    && ServedOnce(m)
    && (m.body.Firing? && ServesFire(m) ==> m.body.skipped == [])
  }

  ghost predicate ServedOnce(m: Machine) {
    && |m.servedIn| == |m.served|
    && (forall j, k :: 0 <= j < k < |m.servedIn| ==> m.servedIn[j] < m.servedIn[k])
    && (forall k :: 0 <= k < |m.servedIn| ==> m.servedIn[k] <= m.passes)
    && (forall i, k :: 0 <= i < |m.log| && 0 <= k < |m.servedIn| && m.log[i].pass == m.servedIn[k] ==>
          m.log[i].data == m.served[k])
  }

  /** The latest pass is that of the fire served last. */
  ghost predicate ServesFire(m: Machine) {
    |m.servedIn| > 0 && m.servedIn[|m.servedIn| - 1] == m.passes
  }

  /** The call being made is the last one logged. */
  ghost predicate LastCall(m: Machine, current: Entry, data: Data) {
    |m.log| > 0 && m.log[|m.log| - 1] == Call(m.passes, current, data)
  }

  /** In the current pass: what had its turn was called, what is pending comes later, what is skipped was not called. */
  ghost predicate PassOk(m: Machine) {
    match m.body
    case Disabled(during) => during.Some? ==> LastCall(m, during.value.current, during.value.data)
    case Idle(_) => true
    case Firing(skipped, ran, pending, current, data) =>
      && LastCall(m, current, data)
      && (forall i :: 0 <= i < |ran| ==> Call(m.passes, ran[i], data) in m.log)
      && (forall i :: 0 <= i < |pending| ==> current.ticket < pending[i].ticket)
      && (forall c, i :: c in m.log && c.pass == m.passes && 0 <= i < |skipped| ==> skipped[i].ticket < c.entry.ticket)
    case Emptied(list, pass) =>
      && LastCall(m, pass.current, pass.data)
      && (pass.length == |list| || list == [])
      && forall i :: pass.next <= i < |list| ==> pass.current.ticket < list[i].ticket
    case Stuck(_) => true
  }

  ghost predicate Inv(m: Machine) {
    InOrder(ListOf(m.body), m.tickets) && LogOk(m) && QueueOk(m) && ServedOk(m) && PassOk(m)
  }

  lemma {:induction false} WithoutMembers(s: seq<Entry>, fn: Fn)
    ensures forall e :: e in Without(s, fn) <==> e in s && e.fn != fn
  {
    if s != [] {
      WithoutMembers(s[..|s| - 1], fn);
      assert s == s[..|s| - 1] + [s[|s| - 1]];
    }
  }

  lemma {:induction false} WithoutOrder(s: seq<Entry>, fn: Fn, n: nat)
    requires InOrder(s, n)
    ensures InOrder(Without(s, fn), n)
  {
    if s != [] {
      var k := |s| - 1;
      assert InOrder(s[..k], n);
      WithoutOrder(s[..k], fn, n);
      WithoutMembers(s[..k], fn);
      assert s[..k] + [s[k]] == s;
      LastInOrder(Without(s[..k], fn), s[..k], s[k], n);
    }
  }

  lemma {:induction false} LastInOrder(r: seq<Entry>, s: seq<Entry>, e: Entry, n: nat)
    requires InOrder(r, n) && InOrder(s + [e], n)
    requires forall x :: x in r ==> x in s
    ensures InOrder(r + [e], n)
  {
    forall i | 0 <= i < |r| ensures r[i].ticket < e.ticket {
      assert r[i] in s;
      var j :| 0 <= j < |s| && s[j] == r[i];
      assert (s + [e])[j] == s[j] && (s + [e])[|s|] == e;
    }
    assert (s + [e])[|s|] == e;
  }

  lemma {:induction false} WithoutConcat(a: seq<Entry>, b: seq<Entry>, fn: Fn)
    ensures Without(a + b, fn) == Without(a, fn) + Without(b, fn)
    decreases |b|
  {
    if b == [] {
      assert a + b == a;
    } else {
      var k := |b| - 1;
      assert (a + b)[..|a + b| - 1] == a + b[..k];
      WithoutConcat(a, b[..k], fn);
    }
  }

  lemma {:induction false} WithoutAllMembers(s: seq<Entry>, fns: seq<Fn>)
    ensures forall e :: e in WithoutAll(s, fns) <==> e in s && e.fn !in fns
    decreases |fns|
  {
    hide Without;
    if fns != [] {
      WithoutMembers(s, fns[0]);
      WithoutAllMembers(Without(s, fns[0]), fns[1..]);
      assert forall f :: f in fns <==> f == fns[0] || f in fns[1..];
    }
  }

  lemma {:induction false} WithoutAllOrder(s: seq<Entry>, fns: seq<Fn>, n: nat)
    requires InOrder(s, n)
    ensures InOrder(WithoutAll(s, fns), n)
    decreases |fns|
  {
    hide Without, InOrder;
    if fns != [] {
      WithoutOrder(s, fns[0], n);
      WithoutAllOrder(Without(s, fns[0]), fns[1..], n);
    }
  }

  /** Removal from the whole list is removal from each of its parts. */
  lemma {:induction false} WithoutAllConcat(a: seq<Entry>, b: seq<Entry>, fns: seq<Fn>)
    ensures WithoutAll(a + b, fns) == WithoutAll(a, fns) + WithoutAll(b, fns)
    decreases |fns|
  {
    hide Without;
    if fns != [] {
      WithoutConcat(a, b, fns[0]);
      WithoutAllConcat(Without(a, fns[0]), Without(b, fns[0]), fns[1..]);
    }
  }

  lemma {:induction false} AppendedOrder(unique: bool, list: seq<Entry>, fns: seq<Fn>, ticket: nat)
    requires InOrder(list, ticket)
    ensures InOrder(list + Appended(unique, list, fns, ticket), ticket + |Appended(unique, list, fns, ticket)|)
    ensures forall e :: e in Appended(unique, list, fns, ticket) ==> e.ticket >= ticket && e.fn in fns
    decreases |fns|
  {
    if fns == [] {
      assert list + [] == list;
    } else if unique && Has(list, fns[0]) {
      AppendedOrder(unique, list, fns[1..], ticket);
    } else {
      var e := Entry(fns[0], ticket);
      AppendedOrder(unique, list + [e], fns[1..], ticket + 1);
      assert list + ([e] + Appended(unique, list + [e], fns[1..], ticket + 1)) ==
             list + [e] + Appended(unique, list + [e], fns[1..], ticket + 1);
    }
  }

  /** Without a remembered fire an addition only appends, behind whatever is pending. */
  lemma {:induction false} AddAppends(m: Machine, fns: seq<Fn>)
    requires Defined(m.body) && !(m.body.Idle? && m.memory.Some?)
    ensures var more := Appended(m.opts.unique, ListOf(m.body), fns, m.tickets);
            var m' := AddOp(m, fns);
            && ListOf(m'.body) == ListOf(m.body) + more
            && m' == m.(body := m'.body, tickets := m.tickets + |more|)
            && (m.body.Firing? ==> m'.body == m.body.(pending := m.body.pending + more))
  {
    hide Appended, Begin;
    if m.body.Firing? {
      var more := Appended(m.opts.unique, ListOf(m.body), fns, m.tickets);
      assert m.body.skipped + m.body.ran + (m.body.pending + more) == ListOf(m.body) + more;
    }
  }

  /** A removal takes every entry of the functions named out of the list, and no other. */
  lemma {:induction false} RemoveFilters(m: Machine, fns: seq<Fn>)
    ensures forall e :: e in ListOf(RemoveOp(m, fns).body) <==> e in ListOf(m.body) && e.fn !in fns
  {
    hide WithoutAll, Shrunk;
    WithoutAllMembers(ListOf(m.body), fns);
    if m.body.Firing? {
      WithoutAllConcat(m.body.skipped + m.body.ran, m.body.pending, fns);
      WithoutAllConcat(m.body.skipped, m.body.ran, fns);
    }
  }

  // ----- Every operation keeps the invariant -----

  /** What the calls of the current pass say about the parts of the list. */
  ghost predicate PassSoFar(m: Machine, skipped: seq<Entry>, ran: seq<Entry>, pending: seq<Entry>, data: Data) {
    && (forall i :: 0 <= i < |ran| ==> Call(m.passes, ran[i], data) in m.log)
    && (forall c :: c in m.log && c.pass == m.passes ==>
          && c.data == data
          && (forall i :: 0 <= i < |skipped| ==> skipped[i].ticket < c.entry.ticket)
          && (forall i :: 0 <= i < |pending| ==> c.entry.ticket < pending[i].ticket))
  }

  /** A pass that serves a fire skips nothing and has its arguments. */
  ghost predicate InFire(m: Machine, skipped: seq<Entry>, data: Data) {
    ServesFire(m) && |m.served| == |m.servedIn| ==> skipped == [] && data == m.served[|m.served| - 1]
  }

  /** What every pass starts from and ends with. */
  ghost predicate Sound(m: Machine) {
    LogOk(m) && Queued(m) && ServedOnce(m) && m.fired
  }

  lemma {:induction false} NextInv(m: Machine, skipped: seq<Entry>, ran: seq<Entry>, pending: seq<Entry>, data: Data)
    requires InOrder(skipped + ran + pending, m.tickets) && Sound(m)
    requires PassSoFar(m, skipped, ran, pending, data) && InFire(m, skipped, data)
    ensures Inv(Next(m, skipped, ran, pending, data))
    decreases QueueLength(m), 1
  {
    if pending == [] {
      assert skipped + ran + pending == skipped + ran;
      FinishInv(m, skipped + ran);
    } else {
      CallInv(m, skipped, ran, pending, data);
    }
  }

  lemma {:induction false} LastServed(m: Machine, k: nat)
    requires ServedOnce(m) && k < |m.servedIn| && m.servedIn[k] == m.passes
    ensures k == |m.servedIn| - 1
  {
    var last := |m.servedIn| - 1;
    assert m.servedIn[last] <= m.passes;
  }

  /** One more call of the current pass, later in the list than the others and with the same arguments. */
  lemma {:induction false} CallLogged(m: Machine, e: Entry, data: Data)
    requires LogOk(m) && ServedOnce(m) && e.ticket < m.tickets
    requires forall c :: c in m.log && c.pass == m.passes ==> c.data == data && c.entry.ticket < e.ticket
    requires ServesFire(m) ==> data == m.served[|m.served| - 1]
    ensures var m' := m.(log := m.log + [Call(m.passes, e, data)]); LogOk(m') && ServedOnce(m')
  {
    var m' := m.(log := m.log + [Call(m.passes, e, data)]);
    forall i | 0 <= i < |m.log| && m.log[i].pass == m.passes
      ensures m.log[i].entry.ticket < e.ticket && m.log[i].data == data
    {
      assert m.log[i] in m.log;
    }
    forall k | 0 <= k < |m.servedIn| && m.servedIn[k] == m.passes ensures data == m.served[k] {
      LastServed(m, k);
    }
    assert LogOk(m');
  }

  lemma {:induction false} CallInv(m: Machine, skipped: seq<Entry>, ran: seq<Entry>, pending: seq<Entry>, data: Data)
    requires InOrder(skipped + ran + pending, m.tickets) && Sound(m)
    requires PassSoFar(m, skipped, ran, pending, data) && InFire(m, skipped, data) && pending != []
    ensures Inv(Next(m, skipped, ran, pending, data))
  {
    hide LogOk, ServedOnce;
    var m' := Next(m, skipped, ran, pending, data);
    var e := pending[0];
    CallSplit(m, skipped, ran, pending);
    assert |m.served| == |m.servedIn| by { SameCount(m); }
    CallLogged(m, e, data);
    HistoryOnly(m.(log := m'.log), m');
  }

  lemma {:induction false} SameCount(m: Machine)
    requires ServedOnce(m)
    ensures |m.served| == |m.servedIn|
  {
  }

  /** The history says the same whatever the list. */
  lemma {:induction false} HistoryOnly(m: Machine, m': Machine)
    requires LogOk(m) && ServedOnce(m)
    requires m'.log == m.log && m'.passes == m.passes && m'.tickets >= m.tickets
    requires m'.served == m.served && m'.servedIn == m.servedIn
    ensures LogOk(m') && ServedOnce(m')
  {
  }

  lemma {:induction false} CallSplit(m: Machine, skipped: seq<Entry>, ran: seq<Entry>, pending: seq<Entry>)
    requires InOrder(skipped + ran + pending, m.tickets) && pending != []
    ensures skipped + (ran + [pending[0]]) + pending[1..] == skipped + ran + pending
    ensures pending[0].ticket < m.tickets
    ensures forall i :: 0 <= i < |pending| - 1 ==> pending[0].ticket < pending[1..][i].ticket
    ensures forall i :: 0 <= i < |skipped| ==> skipped[i].ticket < pending[0].ticket
  {
    var all := skipped + ran + pending;
    assert all[|skipped + ran|] == pending[0];
    forall i | 0 <= i < |pending| - 1 ensures pending[0].ticket < pending[1..][i].ticket {
      assert all[|skipped + ran| + 1 + i] == pending[1..][i];
    }
    forall i | 0 <= i < |skipped| ensures skipped[i].ticket < pending[0].ticket {
      assert all[i] == skipped[i];
    }
  }

  lemma {:induction false} FinishInv(m: Machine, list: seq<Entry>)
    requires InOrder(list, m.tickets) && Sound(m)
    ensures Inv(Finish(m, list))
    decreases QueueLength(m), 0
  {
    if m.stack.Some? && m.stack.value != [] {
      var q := m.stack.value;
      var m' := m.(stack := Some(q[1..]));
      assert m.served + q == (m.served + [q[0]]) + q[1..];
      BeginServing(m', list, q[0]);
    }
  }

  /** A pass of its own for a fire. */
  lemma {:induction false} BeginServing(m: Machine, list: seq<Entry>, data: Data)
    requires InOrder(list, m.tickets) && LogOk(m) && ServedOnce(m) && Queued(Serving(m, data))
    ensures Inv(Begin(Serving(m, data), list, data, 0))
    decreases QueueLength(m), 3
  {
    hide Next, InOrder;
    var m' := Opened(Serving(m, data), data);
    assert list[..0] == [] && list[0..] == list && [] + [] + list == list;
    assert forall c :: c in m.log ==> c.pass < m'.passes;
    NextInv(m', [], [], list, data);
  }

  /** A pass that calls only what was added. */
  lemma {:induction false} BeginAdded(m: Machine, list: seq<Entry>, data: Data, start: nat)
    requires InOrder(list, m.tickets) && LogOk(m) && ServedOnce(m) && start <= |list| && Queued(m)
    ensures Inv(Begin(m, list, data, start))
    decreases QueueLength(m), 3
  {
    hide Next, InOrder;
    var m' := Opened(m, data);
    assert list[..start] + [] + list[start..] == list;
    assert forall c :: c in m.log ==> c.pass < m'.passes;
    NextInv(m', list[..start], [], list[start..], data);
  }

  lemma {:induction false} AddIdleInv(m: Machine, fns: seq<Fn>)
    requires Inv(m) && m.body.Idle?
    ensures Inv(AddOp(m, fns))
  {
    hide Begin, Appended, InOrder, LogOk, QueueOk, Queued, ServedOnce;
    var list := m.body.list;
    var more := Appended(m.opts.unique, list, fns, m.tickets);
    AppendedOrder(m.opts.unique, list, fns, m.tickets);
    var m' := m.(tickets := m.tickets + |more|);
    SameHistory(m, m');
    if m.memory.Some? {
      HistoryQueued(m');
      BeginAdded(m', list + more, m.memory.value, |list|);
    } else {
      SameHistory(m, m'.(body := Idle(list + more)));
    }
  }

  lemma {:induction false} HistoryQueued(m: Machine)
    requires QueueOk(m)
    ensures Queued(m)
  {
  }

  lemma {:induction false} AddRunningInv(m: Machine, fns: seq<Fn>)
    requires Inv(m) && Defined(m.body) && !m.body.Idle?
    ensures Inv(AddOp(m, fns))
  {
    hide Appended, LogOk, QueueOk, ServedOnce;
    var list, m' := ListOf(m.body), AddOp(m, fns);
    var more := Appended(m.opts.unique, list, fns, m.tickets);
    AppendedOrder(m.opts.unique, list, fns, m.tickets);
    SameHistory(m, m');
    if m.body.Firing? {
      assert m.body.skipped + m.body.ran + (m.body.pending + more) == list + more;
      CurrentTicket(m, m.body.current, m.body.data);
      forall i | 0 <= i < |m'.body.pending| ensures m.body.current.ticket < m'.body.pending[i].ticket {
        assert i >= |m.body.pending| ==> m'.body.pending[i] in more;
      }
    } else if m.body.Emptied? {
      CurrentTicket(m, m.body.pass.current, m.body.pass.data);
      forall i | m.body.pass.next <= i < |list + more| ensures m.body.pass.current.ticket < (list + more)[i].ticket {
        assert i >= |list| ==> (list + more)[i] in more;
      }
    }
  }

  lemma {:induction false} CurrentTicket(m: Machine, current: Entry, data: Data)
    requires LogOk(m) && LastCall(m, current, data)
    ensures current.ticket < m.tickets
  {
    assert m.log[|m.log| - 1].entry == current;
  }

  lemma {:induction false} AddInv(m: Machine, fns: seq<Fn>)
    requires Inv(m)
    ensures Inv(AddOp(m, fns))
  {
    hide Inv;
    if Defined(m.body) {
      if m.body.Idle? {
        AddIdleInv(m, fns);
      } else {
        AddRunningInv(m, fns);
      }
    }
  }

  lemma {:induction false} RemoveInv(m: Machine, fns: seq<Fn>)
    requires Inv(m)
    ensures Inv(RemoveOp(m, fns))
  {
    hide QueueOk, LogOk, InOrder, ServedOnce, WithoutAll, Shrunk;
    if Defined(m.body) {
      var m' := RemoveOp(m, fns);
      WithoutAllOrder(ListOf(m.body), fns, m.tickets);
      SameHistory(m, m');
      if m.body.Firing? {
        WithoutAllConcat(m.body.skipped + m.body.ran, m.body.pending, fns);
        WithoutAllConcat(m.body.skipped, m.body.ran, fns);
        WithoutAllMembers(m.body.skipped, fns);
        assert m.body.skipped == [] ==> m'.body.skipped == [] by { NothingWithout(m'.body.skipped); }
        SmallerPass(m, fns);
      } else if m.body.Emptied? {
        ShrunkPass(m, fns);
      }
    }
  }

  lemma {:induction false} NothingWithout(s: seq<Entry>)
    ensures s != [] ==> s[0] in s
  {
  }

  lemma {:induction false} SameHistory(m: Machine, m': Machine)
    requires LogOk(m) && QueueOk(m) && ServedOnce(m)
    requires m'.log == m.log && m'.passes == m.passes && m'.tickets >= m.tickets && m'.fired == m.fired
    requires m'.served == m.served && m'.accepted == m.accepted && m'.servedIn == m.servedIn
    requires m'.stack == m.stack || m'.stack == None
    requires m'.body.Idle? ==> m.body.Idle? || m'.stack == None
    requires !Defined(m'.body) ==> m'.stack == None && m'.memory == None
    requires Running(m') || m'.body.Stuck? ==> m.fired || Running(m) || m.body.Stuck?
    ensures LogOk(m') && QueueOk(m') && ServedOnce(m')
  {
  }

  lemma {:induction false} SmallerPass(m: Machine, fns: seq<Fn>)
    requires PassOk(m) && m.body.Firing?
    ensures PassOk(RemoveOp(m, fns))
  {
    var m' := RemoveOp(m, fns);
    WithoutAllMembers(m.body.skipped, fns);
    WithoutAllMembers(m.body.ran, fns);
    WithoutAllMembers(m.body.pending, fns);
    forall i | 0 <= i < |m'.body.ran| ensures Call(m.passes, m'.body.ran[i], m.body.data) in m.log {
      assert m'.body.ran[i] in m.body.ran;
    }
    forall i | 0 <= i < |m'.body.pending| ensures m.body.current.ticket < m'.body.pending[i].ticket {
      assert m'.body.pending[i] in m.body.pending;
    }
    forall c, i | c in m.log && c.pass == m.passes && 0 <= i < |m'.body.skipped|
      ensures m'.body.skipped[i].ticket < c.entry.ticket
    {
      assert m'.body.skipped[i] in m.body.skipped;
    }
  }

  /** What lies behind the index still does. */
  lemma {:induction false} ShrunkPass(m: Machine, fns: seq<Fn>)
    requires PassOk(m) && m.body.Emptied?
    ensures PassOk(RemoveOp(m, fns))
  {
    hide WithoutAll;
    var list, pass := m.body.list, m.body.pass;
    var cut := if pass.next < |list| then pass.next else |list|;
    var pass' := Shrunk(pass, list, fns);
    var kept := WithoutAll(list, fns);
    assert list == list[..cut] + list[cut..];
    WithoutAllConcat(list[..cut], list[cut..], fns);
    WithoutAllMembers(list[cut..], fns);
    WithoutAllMembers(list, fns);
    NothingWithout(kept);
    forall i | pass'.next <= i < |kept| ensures pass.current.ticket < kept[i].ticket {
      assert kept[i] == WithoutAll(list[cut..], fns)[i - |WithoutAll(list[..cut], fns)|];
      assert kept[i] in list[cut..];
    }
  }

  lemma {:induction false} FireInv(m: Machine, data: Data)
    requires Inv(m)
    ensures Inv(FireOp(m, data))
  {
    if Accepts(m) {
      if m.body.Idle? {
        FirePassInv(m, data);
      } else {
        assert m.served + (m.stack.value + [data]) == (m.served + m.stack.value) + [data];
      }
    }
  }

  lemma {:induction false} FirePassInv(m: Machine, data: Data)
    requires Inv(m) && Accepts(m) && m.body.Idle?
    ensures Inv(FireOp(m, data))
  {
    hide LogOk, ServedOnce, InOrder, Begin;
    var m' := m.(accepted := m.accepted + [data]);
    HistoryOnly(m, m');
    BeginServing(m', m.body.list, data);
  }

  /** All calls of the pass under way were made up to the current entry and with its arguments. */
  lemma {:induction false} CallsSoFar(m: Machine, current: Entry, data: Data)
    requires LogOk(m) && LastCall(m, current, data)
    ensures forall c :: c in m.log && c.pass == m.passes ==> c.data == data && c.entry.ticket <= current.ticket
  {
    forall c | c in m.log && c.pass == m.passes ensures c.data == data && c.entry.ticket <= current.ticket {
      var i :| 0 <= i < |m.log| && m.log[i] == c;
      assert i < |m.log| - 1 || i == |m.log| - 1;
    }
  }

  lemma {:induction false} ServedData(m: Machine, current: Entry, data: Data)
    requires ServedOnce(m) && LastCall(m, current, data) && ServesFire(m)
    ensures data == m.served[|m.served| - 1]
  {
    assert m.log[|m.log| - 1].pass == m.servedIn[|m.servedIn| - 1];
  }

  lemma {:induction false} ReturnFiringInv(m: Machine)
    requires Inv(m) && m.body.Firing?
    ensures Inv(Next(m, m.body.skipped, m.body.ran, m.body.pending, m.body.data))
  {
    hide LogOk, InOrder, Next, ServedOnce;
    var b := m.body;
    CallsSoFar(m, b.current, b.data);
    if ServesFire(m) {
      ServedData(m, b.current, b.data);
    }
    NextInv(m, b.skipped, b.ran, b.pending, b.data);
  }

  lemma {:induction false} ReturnEmptiedInv(m: Machine)
    requires Inv(m) && m.body.Emptied?
    ensures Inv(Resume(m, m.body.list, m.body.pass))
  {
    hide LogOk, InOrder, Finish, ServedOnce;
    var list, pass := m.body.list, m.body.pass;
    var m' := Resume(m, list, pass);
    if pass.next >= pass.length {
      FinishInv(m, list);
    } else if pass.next < |list| {
      CallsSoFar(m, pass.current, pass.data);
      InOrderMeans(list, m.tickets, pass.next);
      if ServesFire(m) {
        ServedData(m, pass.current, pass.data);
      }
      CallLogged(m, list[pass.next], pass.data);
      HistoryOnly(m.(log := m'.log), m');
    } else {
      HistoryOnly(m, m');
    }
  }

  lemma {:induction false} InOrderMeans(list: seq<Entry>, tickets: nat, k: nat)
    requires InOrder(list, tickets) && k < |list|
    ensures list[k].ticket < tickets && forall i :: k < i < |list| ==> list[k].ticket < list[i].ticket
  {
  }

  lemma {:induction false} ReturnInv(m: Machine, result: bool)
    requires Inv(m) && Running(m)
    ensures Inv(ReturnOp(m, result))
  {
    hide LogOk, InOrder, Finish, Next, Resume, ServedOnce, PassSoFar;
    if m.body.Disabled? {
      SameHistory(m, ReturnOp(m, result));
    } else if !result && m.opts.stopOnFalse {
      HistoryOnly(m, m.(memory := None));
      FinishInv(m.(memory := None), ListOf(m.body));
    } else if m.body.Firing? {
      ReturnFiringInv(m);
    } else {
      ReturnEmptiedInv(m);
    }
  }

  lemma {:induction false} DisableInv(m: Machine)
    requires Inv(m)
    ensures Inv(DisableOp(m))
  {
    hide LogOk, ServedOnce;
    SameHistory(m, DisableOp(m));
  }

  lemma {:induction false} LockInv(m: Machine)
    requires Inv(m)
    ensures Inv(LockOp(m))
  {
    hide LogOk, ServedOnce, DisableOp;
    DisableInv(m);
    SameHistory(m, m.(stack := None, memory := if Defined(m.body) then m.memory else None));
  }

  lemma {:induction false} EmptyInv(m: Machine)
    requires Inv(m)
    ensures Inv(EmptyOp(m))
  {
    hide LogOk, ServedOnce;
    SameHistory(m, EmptyOp(m));
  }

  lemma {:induction false} DoInv(m: Machine, op: Op)
    requires Inv(m) && Allowed(m, op)
    ensures Inv(Do(m, op))
  {
    hide Inv, AddOp, RemoveOp, FireOp, LockOp, DisableOp, EmptyOp, ReturnOp;
    match op
    case Add(fns) => AddInv(m, fns);
    case Remove(fns) => RemoveInv(m, fns);
    case FireWith(data) => FireInv(m, data);
    case Lock => LockInv(m);
    case Disable => DisableInv(m);
    case Empty => EmptyInv(m);
    case Returned(result) => ReturnInv(m, result);
  }

  /** In every run, from the creation of the list on. */
  lemma {:induction false} RunInv(m: Machine, ops: seq<Op>)
    requires Inv(m) && IsRun(m, ops)
    ensures Inv(After(m, ops))
    decreases |ops|
  {
    hide Inv, Do;
    if ops != [] {
      DoInv(m, ops[0]);
      RunInv(Do(m, ops[0]), ops[1..]);
    }
  }

  lemma CreateInv(opts: Options)
    ensures Inv(Create(opts))
  {
  }

  /** Some sequence of operations, in and between callbacks, leads here from a new list. */
  ghost predicate Reachable(m: Machine) {
    exists opts, ops :: IsRun(Create(opts), ops) && After(Create(opts), ops) == m
  }

  lemma {:induction false} ReachableInv(m: Machine)
    requires Reachable(m)
    ensures Inv(m)
  {
    var opts, ops :| IsRun(Create(opts), ops) && After(Create(opts), ops) == m;
    CreateInv(opts);
    RunInv(Create(opts), ops);
  }

  // ----- Main results -----

  /** Within one pass no entry is called twice, calls follow the order of the list,
      and all are made with the same arguments. */
  lemma {:induction false} OncePerPass(m: Machine, i: nat, j: nat)
    requires Reachable(m) && i < j < |m.log|
    ensures m.log[i].pass <= m.log[j].pass
    ensures m.log[i].pass == m.log[j].pass ==>
              m.log[i].entry.ticket < m.log[j].entry.ticket && m.log[i].data == m.log[j].data
  {
    ReachableInv(m);
  }

  /** The call was made, and no other of the same entry in the same pass. */
  ghost predicate CalledOnce(m: Machine, call: Call) {
    exists i :: 0 <= i < |m.log| && m.log[i] == call && OnlyCall(m, i)
  }

  ghost predicate SameTurn(a: Call, b: Call) {
    a.pass == b.pass && a.entry.ticket == b.entry.ticket
  }

  ghost predicate OnlyCall(m: Machine, i: nat)
    requires i < |m.log|
  {
    forall j :: 0 <= j < |m.log| && SameTurn(m.log[j], m.log[i]) ==> j == i
  }

  lemma {:induction false} LoggedOnce(m: Machine, call: Call)
    requires LogOk(m) && call in m.log
    ensures CalledOnce(m, call)
  {
    var i :| 0 <= i < |m.log| && m.log[i] == call;
    forall j | 0 <= j < |m.log| && SameTurn(m.log[j], m.log[i]) ensures j == i {
      assert j < i || j == i || i < j;
    }
    assert OnlyCall(m, i);
  }

  /** When a pass has nothing pending, every entry in the list that the pass does not skip
      has been called in it, and exactly once; the pass of a fire skips none and has its arguments. */
  lemma {:induction false} PassComplete(m: Machine, e: Entry)
    requires Reachable(m) && m.body.Firing? && m.body.pending == []
    requires e in ListOf(m.body) && (ServesFire(m) || e !in m.body.skipped)
    ensures CalledOnce(m, Call(m.passes, e, m.body.data))
    ensures ServesFire(m) ==> |m.served| > 0 && m.body.data == m.served[|m.served| - 1]
  {
    ReachableInv(m);
    if ServesFire(m) {
      ServedData(m, m.body.current, m.body.data);
    }
    var k :| 0 <= k < |m.body.ran| && m.body.ran[k] == e;
    LoggedOnce(m, Call(m.passes, e, m.body.data));
  }

  // ----- Which fires are served -----

  /** The arguments of the fires a run asks for, where the list takes them on. */
  ghost function Requests(m: Machine, ops: seq<Op>): seq<Data>
    requires IsRun(m, ops)
    decreases |ops|
  {
    if ops == [] then []
    else (if ops[0].FireWith? && Accepts(m) then [ops[0].data] else []) + Requests(Do(m, ops[0]), ops[1..])
  }

  /** What the history fields record only grows. */
  ghost predicate Grows(m: Machine, m': Machine) {
    m.log <= m'.log && m.served <= m'.served && m.servedIn <= m'.servedIn && m'.opts == m.opts
  }

  lemma {:induction false} NextGrows(m: Machine, skipped: seq<Entry>, ran: seq<Entry>, pending: seq<Entry>, data: Data)
    ensures var m' := Next(m, skipped, ran, pending, data); Grows(m, m') && m'.accepted == m.accepted
    ensures Next(m, skipped, ran, pending, data).stack.Some? == m.stack.Some?
    decreases QueueLength(m), 1
  {
    if pending == [] {
      FinishGrows(m, skipped + ran);
    }
  }

  lemma {:induction false} FinishGrows(m: Machine, list: seq<Entry>)
    ensures Grows(m, Finish(m, list)) && Finish(m, list).accepted == m.accepted
    ensures Finish(m, list).stack.Some? == m.stack.Some?
    decreases QueueLength(m), 0
  {
    if m.stack.Some? && m.stack.value != [] {
      BeginGrows(Serving(m.(stack := Some(m.stack.value[1..])), m.stack.value[0]), list, m.stack.value[0], 0);
    }
  }

  lemma {:induction false} BeginGrows(m: Machine, list: seq<Entry>, data: Data, start: nat)
    requires start <= |list|
    ensures Grows(m, Begin(m, list, data, start)) && Begin(m, list, data, start).accepted == m.accepted
    ensures Begin(m, list, data, start).stack.Some? == m.stack.Some?
    decreases QueueLength(m), 2
  {
    NextGrows(Opened(m, data), list[..start], [], list[start..], data);
  }

  /** An accepted fire is recorded, and so is nothing else; a list that can queue fires goes on doing so until
      it is locked or disabled. */
  lemma {:induction false} DoGrows(m: Machine, op: Op)
    requires Inv(m) && Allowed(m, op)
    ensures Grows(m, Do(m, op))
    ensures Do(m, op).accepted == m.accepted + if op.FireWith? && Accepts(m) then [op.data] else []
    ensures m.stack.Some? && !op.Lock? && !op.Disable? ==> Do(m, op).stack.Some?
  {
    hide Begin, Next, Finish, LogOk, InOrder, PassOk, ServedOk;
    match op
    case Add(fns) =>
      if m.body.Idle? && m.memory.Some? {
        var more := Appended(m.opts.unique, m.body.list, fns, m.tickets);
        BeginGrows(m.(tickets := m.tickets + |more|), m.body.list + more, m.memory.value, |m.body.list|);
      }
    case Remove(_) =>
    case FireWith(data) =>
      if m.body.Idle? {
        BeginGrows(Serving(m.(accepted := m.accepted + [data]), data), m.body.list, data, 0);
      }
    case Lock =>
    case Disable =>
    case Empty =>
    case Returned(result) =>
      FinishGrows(m.(memory := None), ListOf(m.body));
      FinishGrows(m, ListOf(m.body));
      if m.body.Firing? {
        NextGrows(m, m.body.skipped, m.body.ran, m.body.pending, m.body.data);
      }
  }

  lemma {:induction false} RunAccepts(m: Machine, ops: seq<Op>)
    requires Inv(m) && IsRun(m, ops)
    ensures After(m, ops).accepted == m.accepted + Requests(m, ops)
    decreases |ops|
  {
    hide Inv, Do, Accepts;
    if ops != [] {
      DoInv(m, ops[0]);
      DoGrows(m, ops[0]);
      RunAccepts(Do(m, ops[0]), ops[1..]);
    }
  }

  /** Fires are served first in, first out, whatever callbacks do: the fires served are the first ones taken on,
      each in a pass of its own and in that order, with every call of the pass made with its arguments. As long
      as the list is neither locked nor disabled the others are waiting, and none is when the list is idle. */
  lemma {:induction false} FirstInFirstOut(opts: Options, ops: seq<Op>)
    requires IsRun(Create(opts), ops)
    ensures var m := After(Create(opts), ops);
            && m.served <= Requests(Create(opts), ops)
            && (m.stack.Some? ==> Requests(Create(opts), ops) == m.served + m.stack.value)
            && (m.stack.Some? && m.body.Idle? ==> m.served == Requests(Create(opts), ops))
            && ServedOnce(m)
  {
    CreateInv(opts);
    RunInv(Create(opts), ops);
    RunAccepts(Create(opts), ops);
    assert [] + Requests(Create(opts), ops) == Requests(Create(opts), ops);
  }

  ghost function Fires(ops: seq<Op>): seq<Data> {
    if ops == [] then [] else (if ops[0].FireWith? then [ops[0].data] else []) + Fires(ops[1..])
  }

  /** A list that may fire again and again takes on every fire until it is locked or disabled. */
  lemma {:induction false} EveryFireTaken(m: Machine, ops: seq<Op>)
    requires Inv(m) && IsRun(m, ops) && m.stack.Some?
    requires forall i :: 0 <= i < |ops| ==> !ops[i].Lock? && !ops[i].Disable?
    ensures Requests(m, ops) == Fires(ops)
    decreases |ops|
  {
    if ops != [] {
      DoInv(m, ops[0]);
      DoGrows(m, ops[0]);
      EveryFireTaken(Do(m, ops[0]), ops[1..]);
    }
  }

  // ----- Whom a fire reaches -----

  /** The pass of the k-th fire is over. */
  ghost predicate Over(m: Machine, k: nat) {
    k < |m.served| && !(k == |m.served| - 1 && ServesFire(m) && Running(m))
  }

  /** Until the pass of the k-th fire is over, nothing removes `fn`, disables the list or stops that pass. */
  ghost predicate Undisturbed(m: Machine, ops: seq<Op>, k: nat, fn: Fn)
    requires IsRun(m, ops)
    decreases |ops|
  {
    ops != [] && !Over(m, k) ==> Leaves(m, ops[0], k, fn) && Undisturbed(Do(m, ops[0]), ops[1..], k, fn)
  }

  ghost predicate Leaves(m: Machine, op: Op, k: nat, fn: Fn) {
    match op
    case Remove(fns) => fn !in fns
    case Lock => m.memory.Some?
    case Disable => false
    case Empty => false
    case Returned(result) => result || !m.opts.stopOnFalse || k != |m.served| - 1 || !ServesFire(m)
    case _ => true
  }

  ghost predicate Reached(m: Machine, k: nat, e: Entry) {
    k < |m.served| && k < |m.servedIn| && Call(m.servedIn[k], e, m.served[k]) in m.log
  }

  /** The entry has its turn in the pass of the k-th fire still to come, or has had it. */
  ghost predicate InLine(m: Machine, k: nat, e: Entry) {
    if k >= |m.served| then e in ListOf(m.body) || (m.fired && m.stack == None)
    else Reached(m, k, e) || (k == |m.served| - 1 && ServesFire(m) && m.body.Firing? && e in m.body.pending)
  }

  lemma {:induction false} ReachedStays(m: Machine, m': Machine, k: nat, e: Entry)
    requires Reached(m, k, e) && Grows(m, m')
    ensures Reached(m', k, e)
  {
    var i :| 0 <= i < |m.log| && m.log[i] == Call(m.servedIn[k], e, m.served[k]);
    assert m'.log[i] == m.log[i] && m'.served[k] == m.served[k] && m'.servedIn[k] == m.servedIn[k];
  }

  /** The pass of a fire starts with the first entry. */
  lemma {:induction false} ServingFirst(m: Machine, list: seq<Entry>, data: Data)
    requires list != []
    ensures var m' := Begin(Serving(m, data), list, data, 0);
            && m'.body == Firing([], [list[0]], list[1..], list[0], data)
            && m'.log == m.log + [Call(m.passes + 1, list[0], data)] && m'.passes == m.passes + 1 && m'.fired
            && m'.served == m.served + [data] && m'.servedIn == m.servedIn + [m.passes + 1] && m'.stack == m.stack
  {
    assert list[..0] == [] && list[0..] == list && [] + [list[0]] == [list[0]];
    var n := Opened(Serving(m, data), data);
    assert Begin(Serving(m, data), list, data, 0) == Next(n, [], [], list, data);
  }

  /** A pass for some fire over a list with `e` in it. */
  lemma {:induction false} ServingInLine(m: Machine, list: seq<Entry>, data: Data, k: nat, e: Entry)
    requires |m.served| == |m.servedIn| && k >= |m.served| && e in list
    ensures InLine(Begin(Serving(m, data), list, data, 0), k, e)
  {
    var m' := Begin(Serving(m, data), list, data, 0);
    ServingFirst(m, list, data);
    assert m'.log[|m.log|] == Call(m.passes + 1, list[0], data);
    assert e == list[0] || e in list[1..];
    assert ListOf(m'.body) == list;
  }

  lemma {:induction false} FinishInLine(m: Machine, list: seq<Entry>, k: nat, e: Entry)
    requires |m.served| == |m.servedIn| && m.fired && k >= |m.served| && (e in list || m.stack == None)
    ensures InLine(Finish(m, list), k, e)
  {
    if m.stack.Some? && m.stack.value != [] {
      ServingInLine(m.(stack := Some(m.stack.value[1..])), list, m.stack.value[0], k, e);
    }
  }

  /** While another pass is under way. */
  lemma {:induction false} NextInLine(m: Machine, skipped: seq<Entry>, ran: seq<Entry>, pending: seq<Entry>, data: Data,
                                      k: nat, e: Entry)
    requires |m.served| == |m.servedIn| && m.fired && k >= |m.served|
    requires e in skipped + ran + pending || m.stack == None
    ensures InLine(Next(m, skipped, ran, pending, data), k, e)
  {
    if pending == [] {
      assert skipped + ran + pending == skipped + ran;
      FinishInLine(m, skipped + ran, k, e);
    } else {
      assert skipped + (ran + [pending[0]]) + pending[1..] == skipped + ran + pending;
    }
  }

  /** While the pass of the k-th fire itself is under way. */
  lemma {:induction false} NextReaches(m: Machine, k: nat, e: Entry)
    requires m.body.Firing? && ServesFire(m) && |m.served| == |m.servedIn| == k + 1
    requires m.body.data == m.served[k] && (Reached(m, k, e) || e in m.body.pending)
    ensures InLine(Next(m, m.body.skipped, m.body.ran, m.body.pending, m.body.data), k, e)
  {
    hide Finish;
    var pending := m.body.pending;
    var m' := Next(m, m.body.skipped, m.body.ran, pending, m.body.data);
    NextGrows(m, m.body.skipped, m.body.ran, pending, m.body.data);
    if Reached(m, k, e) {
      ReachedStays(m, m', k, e);
    } else {
      assert m'.log[|m.log|] == Call(m.passes, pending[0], m.body.data);
      assert e == pending[0] || e in pending[1..];
    }
  }

  lemma {:induction false} ReturnInLine(m: Machine, result: bool, k: nat, e: Entry)
    requires Inv(m) && Running(m) && InLine(m, k, e) && !Over(m, k) && Leaves(m, Returned(result), k, e.fn)
    ensures InLine(ReturnOp(m, result), k, e)
  {
    hide Next, Finish, LogOk, InOrder;
    if k >= |m.served| {
      if m.body.Disabled? {
      } else if !result && m.opts.stopOnFalse {
        FinishInLine(m.(memory := None), ListOf(m.body), k, e);
      } else if m.body.Firing? {
        NextInLine(m, m.body.skipped, m.body.ran, m.body.pending, m.body.data, k, e);
      } else {
        ResumeInLine(m, k, e);
      }
    } else if Reached(m, k, e) {
      DoGrows(m, Returned(result));
      ReachedStays(m, ReturnOp(m, result), k, e);
    } else {
      ServedData(m, m.body.current, m.body.data);
      NextReaches(m, k, e);
    }
  }

  lemma {:induction false} ResumeInLine(m: Machine, k: nat, e: Entry)
    requires Inv(m) && m.body.Emptied? && k >= |m.served| && (e in m.body.list || m.stack == None)
    ensures InLine(Resume(m, m.body.list, m.body.pass), k, e)
  {
    hide Finish, LogOk, InOrder;
    if m.body.pass.next >= m.body.pass.length {
      FinishInLine(m, m.body.list, k, e);
    }
  }

  lemma {:induction false} AddInLine(m: Machine, fns: seq<Fn>, k: nat, e: Entry)
    requires Inv(m) && InLine(m, k, e)
    ensures InLine(AddOp(m, fns), k, e)
  {
    hide AddOp, Inv;
    if k < |m.served| && Reached(m, k, e) {
      DoGrows(m, Add(fns));
      ReachedStays(m, AddOp(m, fns), k, e);
    } else if m.body.Idle? && m.memory.Some? {
      AddIdleInLine(m, fns, k, e);
    } else {
      AddWaitingInLine(m, fns, k, e);
    }
  }

  lemma {:induction false} AddIdleInLine(m: Machine, fns: seq<Fn>, k: nat, e: Entry)
    requires Inv(m) && m.body.Idle? && m.memory.Some? && InLine(m, k, e) && k >= |m.served|
    ensures InLine(AddOp(m, fns), k, e)
  {
    hide Begin, Appended, LogOk, InOrder, PassOk;
    var more := Appended(m.opts.unique, m.body.list, fns, m.tickets);
    AddedInLine(m.(tickets := m.tickets + |more|), m.body.list, more, m.memory.value, k, e);
  }

  lemma {:induction false} AddWaitingInLine(m: Machine, fns: seq<Fn>, k: nat, e: Entry)
    requires !(m.body.Idle? && m.memory.Some?) && InLine(m, k, e) && !Reached(m, k, e)
    ensures InLine(AddOp(m, fns), k, e)
  {
    if Defined(m.body) {
      AddAppends(m, fns);
      hide AddOp, Appended;
    }
  }

  lemma {:induction false} AddedInLine(m: Machine, list: seq<Entry>, more: seq<Entry>, data: Data, k: nat, e: Entry)
    requires |m.served| == |m.servedIn| && k >= |m.served| && (e in list || m.stack == None)
    ensures InLine(Begin(m, list + more, data, |list|), k, e)
  {
    hide Next;
    assert (list + more)[..|list|] == list && (list + more)[|list|..] == more;
    NextInLine(Opened(m, data), list, [], more, data, k, e);
  }

  lemma {:induction false} RemoveInLine(m: Machine, fns: seq<Fn>, k: nat, e: Entry)
    requires InLine(m, k, e) && e.fn !in fns
    ensures InLine(RemoveOp(m, fns), k, e)
  {
    hide WithoutAll, Shrunk;
    WithoutAllMembers(ListOf(m.body), fns);
    if m.body.Firing? {
      WithoutAllMembers(m.body.pending, fns);
      WithoutAllConcat(m.body.skipped + m.body.ran, m.body.pending, fns);
      WithoutAllConcat(m.body.skipped, m.body.ran, fns);
    }
  }

  lemma {:induction false} FireInLine(m: Machine, data: Data, k: nat, e: Entry)
    requires Inv(m) && InLine(m, k, e) && !Over(m, k)
    ensures InLine(FireOp(m, data), k, e)
  {
    hide Begin, LogOk, InOrder, PassOk;
    if m.body.Idle? && Accepts(m) {
      ServingInLine(m.(accepted := m.accepted + [data]), m.body.list, data, k, e);
    }
  }

  lemma {:induction false} LockInLine(m: Machine, k: nat, e: Entry)
    requires QueueOk(m) && InLine(m, k, e) && m.memory.Some?
    ensures InLine(LockOp(m), k, e)
  {
  }

  lemma {:induction false} DoInLine(m: Machine, op: Op, k: nat, e: Entry)
    requires Inv(m) && Allowed(m, op) && InLine(m, k, e) && !Over(m, k) && Leaves(m, op, k, e.fn)
    ensures InLine(Do(m, op), k, e)
  {
    hide AddOp, RemoveOp, FireOp, LockOp, ReturnOp, InLine, LogOk, InOrder, QueueOk, ServedOk, PassOk, Over;
    match op
    case Add(fns) => AddInLine(m, fns, k, e);
    case Remove(fns) => RemoveInLine(m, fns, k, e);
    case FireWith(data) => FireInLine(m, data, k, e);
    case Lock => LockInLine(m, k, e);
    case Returned(result) => ReturnInLine(m, result, k, e);
  }

  lemma {:induction false} OverStays(m: Machine, ops: seq<Op>, k: nat, e: Entry)
    requires Inv(m) && IsRun(m, ops) && Reached(m, k, e)
    ensures Reached(After(m, ops), k, e)
    decreases |ops|
  {
    hide Inv, Do, Reached;
    if ops != [] {
      DoInv(m, ops[0]);
      DoGrows(m, ops[0]);
      ReachedStays(m, Do(m, ops[0]), k, e);
      OverStays(Do(m, ops[0]), ops[1..], k, e);
    }
  }

  lemma {:induction false} RunInLine(m: Machine, ops: seq<Op>, k: nat, e: Entry)
    requires Inv(m) && IsRun(m, ops) && InLine(m, k, e) && Undisturbed(m, ops, k, e.fn)
    ensures InLine(After(m, ops), k, e)
    decreases |ops|
  {
    hide Inv, Do, Leaves;
    if Over(m, k) {
      OverStays(m, ops, k, e);
    } else if ops != [] {
      DoInv(m, ops[0]);
      DoInLine(m, ops[0], k, e);
      RunInLine(Do(m, ops[0]), ops[1..], k, e);
    }
  }

  /** A fire reaches every callback: one that is in the list before the pass of the fire, or joins it while it is
      under way, and is left there undisturbed, has been called exactly once in that pass when it is over, with
      the arguments of the fire. The fire may be the one under way, a queued one or one yet to come. */
  lemma {:induction false} FireReaches(m: Machine, ops: seq<Op>, k: nat, e: Entry)
    requires Reachable(m) && IsRun(m, ops) && Undisturbed(m, ops, k, e.fn)
    requires if k >= |m.served| then e in ListOf(m.body)
             else k == |m.served| - 1 && ServesFire(m) && m.body.Firing? && e in m.body.pending
    requires Over(After(m, ops), k)
    ensures var r := After(m, ops); |r.servedIn| == |r.served| && CalledOnce(r, Call(r.servedIn[k], e, r.served[k]))
  {
    hide Inv, Do, Undisturbed;
    ReachableInv(m);
    RunInLine(m, ops, k, e);
    RunInv(m, ops);
    FireReached(After(m, ops), k, e);
  }

  lemma {:induction false} FireReached(m: Machine, k: nat, e: Entry)
    requires Inv(m) && InLine(m, k, e) && Over(m, k)
    ensures |m.servedIn| == |m.served| && CalledOnce(m, Call(m.servedIn[k], e, m.served[k]))
  {
    LoggedOnce(m, Call(m.servedIn[k], e, m.served[k]));
  }

  // ----- Emptying a list in the middle of a pass -----

  /** The return of a callback ends in an exception exactly when the list was emptied with entries still pending
      and nothing was added since, unless the pass is stopped. */
  lemma {:induction false} FaultsExactly(m: Machine, result: bool)
    requires Reachable(m) && Running(m)
    ensures ReturnOp(m, result).body.Stuck? <==>
            && m.body.Emptied? && m.body.list == [] && m.body.pass.next < m.body.pass.length
            && (result || !m.opts.stopOnFalse)
  {
    hide Next, Finish;
    ReachableInv(m);
    FinishPlain(m.(memory := None), ListOf(m.body));
    FinishPlain(m, ListOf(m.body));
    if m.body.Firing? {
      NextPlain(m, m.body.skipped, m.body.ran, m.body.pending, m.body.data);
    }
  }

  /** No list emptied in the middle of a pass. */
  ghost predicate Plain(m: Machine) {
    !m.body.Emptied? && !m.body.Stuck?
  }

  lemma {:induction false} NextPlain(m: Machine, skipped: seq<Entry>, ran: seq<Entry>, pending: seq<Entry>, data: Data)
    ensures Plain(Next(m, skipped, ran, pending, data))
    decreases QueueLength(m), 1
  {
    if pending == [] {
      FinishPlain(m, skipped + ran);
    }
  }

  lemma {:induction false} FinishPlain(m: Machine, list: seq<Entry>)
    ensures Plain(Finish(m, list))
    decreases QueueLength(m), 0
  {
    if m.stack.Some? && m.stack.value != [] {
      var m' := Serving(m.(stack := Some(m.stack.value[1..])), m.stack.value[0]);
      NextPlain(Opened(m', m.stack.value[0]), list[..0], [], list[0..], m.stack.value[0]);
    }
  }

  /** Only `empty` leads there. */
  lemma {:induction false} StaysPlain(m: Machine, op: Op)
    requires Plain(m) && Allowed(m, op) && !op.Empty?
    ensures Plain(Do(m, op))
  {
    hide Next, Finish, Appended, WithoutAll;
    match op
    case Add(fns) =>
      if m.body.Idle? && m.memory.Some? {
        var more := Appended(m.opts.unique, m.body.list, fns, m.tickets);
        BeginPlain(m.(tickets := m.tickets + |more|), m.body.list + more, m.memory.value, |m.body.list|);
      }
    case FireWith(data) =>
      if m.body.Idle? {
        BeginPlain(Serving(m.(accepted := m.accepted + [data]), data), m.body.list, data, 0);
      }
    case Returned(result) =>
      if m.body.Firing? {
        FinishPlain(m.(memory := None), ListOf(m.body));
        NextPlain(m, m.body.skipped, m.body.ran, m.body.pending, m.body.data);
      }
    case _ =>
  }

  lemma {:induction false} BeginPlain(m: Machine, list: seq<Entry>, data: Data, start: nat)
    requires start <= |list|
    ensures Plain(Begin(m, list, data, start))
  {
    hide Next;
    NextPlain(Opened(m, data), list[..start], [], list[start..], data);
  }

  /** What may happen between `empty` and the return of the callback without changing the outcome. */
  ghost predicate Quiet(op: Op) {
    op.Remove? || op.FireWith? || op.Empty? || op.Lock? || op.Disable?
  }

  /** An emptied list with the given pass, or the same disabled. */
  ghost predicate EmptyWith(m: Machine, pass: Pass) {
    m.body == Emptied([], pass) || m.body == Disabled(Some(pass))
  }

  lemma {:induction false} QuietStaysEmpty(m: Machine, ops: seq<Op>, pass: Pass)
    requires EmptyWith(m, pass) && IsRun(m, ops) && forall i :: 0 <= i < |ops| ==> Quiet(ops[i])
    ensures EmptyWith(After(m, ops), pass) && After(m, ops).opts == m.opts
    decreases |ops|
  {
    if ops != [] {
      assert Quiet(ops[0]);
      if ops[0].Remove? {
        WithoutAllMembers([], ops[0].fns);
        NothingWithout(WithoutAll([], ops[0].fns));
      }
      QuietStaysEmpty(Do(m, ops[0]), ops[1..], pass);
    }
  }

  /** A callback that empties its own list: without an addition before it returns the pass ends normally if and
      only if nothing was pending, the list has been disabled (or locked, when it remembers nothing), or the
      callback stops the pass. */
  lemma {:induction false} EmptiedPassEnds(m: Machine, ops: seq<Op>, result: bool)
    requires Reachable(m) && m.body.Firing? && IsRun(EmptyOp(m), ops)
    requires forall i :: 0 <= i < |ops| ==> Quiet(ops[i])
    ensures var r := After(EmptyOp(m), ops);
            && Running(r)
            && (!ReturnOp(r, result).body.Stuck? <==>
                m.body.pending == [] || r.body.Disabled? || (!result && m.opts.stopOnFalse))
  {
    hide Next, Finish;
    QuietStaysEmpty(EmptyOp(m), ops, PassOf(m.body));
    var r := After(EmptyOp(m), ops);
    FinishPlain(r.(memory := None), []);
    FinishPlain(r, []);
  }

  /** Such a list never calls anything again: it counts as firing for good, and queues what it is asked to fire. */
  lemma {:induction false} StuckForGood(m: Machine, ops: seq<Op>)
    requires m.body.Stuck? && IsRun(m, ops)
    ensures After(m, ops).body.Stuck? && After(m, ops).log == m.log && After(m, ops).served == m.served
    decreases |ops|
  {
    hide WithoutAll, Appended;
    if ops != [] {
      StuckForGood(Do(m, ops[0]), ops[1..]);
    }
  }

  /** Two callbacks of which the first empties the list are enough. */
  lemma {:induction false} EmptyingCanFault(opts: Options, f: Fn, g: Fn, data: Data)
    requires f != g
    ensures var ops := [Add([f, g]), FireWith(data), Empty, Returned(true)];
            IsRun(Create(opts), ops) && After(Create(opts), ops).body.Stuck?
  {
    hide Begin, Next, Finish, Appended;
    var m0, a, b := Create(opts), Entry(f, 0), Entry(g, 1);
    TwoAppended(opts.unique, f, g);
    var m1 := Do(m0, Add([f, g]));
    assert [] + [a, b] == [a, b];
    ServingFirst(m1.(accepted := m1.accepted + [data]), [a, b], data);
    var m2 := Do(m1, FireWith(data));
    assert m2.body == Firing([], [a], [a, b][1..], a, data);
    var m3 := Do(m2, Empty);
    var m4 := Do(m3, Returned(true));
    assert m3.body == Emptied([], Pass(1, 2, a, data)) && m4.body.Stuck?;
    FourSteps(m0, [Add([f, g]), FireWith(data), Empty, Returned(true)], m1, m2, m3, m4);
  }

  lemma {:induction false} TwoAppended(unique: bool, f: Fn, g: Fn)
    requires f != g
    ensures Appended(unique, [], [f, g], 0) == [Entry(f, 0), Entry(g, 1)]
  {
    var a, b := Entry(f, 0), Entry(g, 1);
    assert [f, g][1..] == [g] && [g][1..] == [] && [] + [a] == [a];
    assert !Has([], f) && !Has([a], g) && Appended(unique, [a], [g], 1) == [b];
  }

  lemma {:induction false} FourSteps(m0: Machine, ops: seq<Op>, m1: Machine, m2: Machine, m3: Machine, m4: Machine)
    requires |ops| == 4
    requires Allowed(m0, ops[0]) && m1 == Do(m0, ops[0]) && Allowed(m1, ops[1]) && m2 == Do(m1, ops[1])
    requires Allowed(m2, ops[2]) && m3 == Do(m2, ops[2]) && Allowed(m3, ops[3]) && m4 == Do(m3, ops[3])
    ensures IsRun(m0, ops) && After(m0, ops) == m4
  {
    hide Do, Allowed;
    assert ops[3..][1..] == [] && ops[2..][1..] == ops[3..] && ops[1..][1..] == ops[2..];
    assert IsRun(m3, ops[3..]) && After(m3, ops[3..]) == m4;
    assert IsRun(m2, ops[2..]) && After(m2, ops[2..]) == m4;
    assert IsRun(m1, ops[1..]) && After(m1, ops[1..]) == m4;
  }

  // ----- Removal -----

  ghost predicate Guarded(list: seq<Entry>, fns: seq<Fn>, ticket: nat) {
    forall i :: 0 <= i < |list| && list[i].fn in fns ==> list[i].ticket >= ticket
  }

  /** The log only grows, by calls of entries that are not `fns` or were added later. */
  ghost predicate CallsGuarded(m: Machine, m': Machine, fns: seq<Fn>, ticket: nat) {
    && m.log <= m'.log && m.tickets <= m'.tickets
    && (forall i :: |m.log| <= i < |m'.log| && m'.log[i].entry.fn in fns ==> m'.log[i].entry.ticket >= ticket)
    && Guarded(ListOf(m'.body), fns, ticket)
  }

  lemma {:induction false} NextGuarded(m: Machine, skipped: seq<Entry>, ran: seq<Entry>, pending: seq<Entry>,
                                       data: Data, fns: seq<Fn>, ticket: nat)
    requires Guarded(skipped + ran + pending, fns, ticket)
    ensures CallsGuarded(m, Next(m, skipped, ran, pending, data), fns, ticket)
    decreases QueueLength(m), 1
  {
    if pending == [] {
      assert skipped + ran + pending == skipped + ran;
      FinishGuarded(m, skipped + ran, fns, ticket);
    } else {
      assert skipped + (ran + [pending[0]]) + pending[1..] == skipped + ran + pending;
      assert (skipped + ran + pending)[|skipped + ran|] == pending[0];
    }
  }

  lemma {:induction false} FinishGuarded(m: Machine, list: seq<Entry>, fns: seq<Fn>, ticket: nat)
    requires Guarded(list, fns, ticket)
    ensures CallsGuarded(m, Finish(m, list), fns, ticket)
    decreases QueueLength(m), 0
  {
    if m.stack.Some? && m.stack.value != [] {
      var data := m.stack.value[0];
      BeginGuarded(Serving(m.(stack := Some(m.stack.value[1..])), data), list, data, 0, fns, ticket);
    }
  }

  lemma {:induction false} BeginGuarded(m: Machine, list: seq<Entry>, data: Data, start: nat, fns: seq<Fn>, ticket: nat)
    requires start <= |list| && Guarded(list, fns, ticket)
    ensures CallsGuarded(m, Begin(m, list, data, start), fns, ticket)
    decreases QueueLength(m), 2
  {
    assert list[..start] + [] + list[start..] == list;
    NextGuarded(Opened(m, data), list[..start], [], list[start..], data, fns, ticket);
  }

  lemma {:induction false} AppendedGuarded(unique: bool, list: seq<Entry>, more: seq<Fn>, tickets: nat, fns: seq<Fn>,
                                           ticket: nat)
    requires InOrder(list, tickets) && Guarded(list, fns, ticket) && ticket <= tickets
    ensures Guarded(list + Appended(unique, list, more, tickets), fns, ticket)
  {
    hide Appended, InOrder;
    AppendedOrder(unique, list, more, tickets);
    var added := Appended(unique, list, more, tickets);
    assert forall i :: 0 <= i < |added| ==> added[i] in added;
  }

  lemma {:induction false} AddGuarded(m: Machine, more: seq<Fn>, fns: seq<Fn>, ticket: nat)
    requires InOrder(ListOf(m.body), m.tickets) && Guarded(ListOf(m.body), fns, ticket) && ticket <= m.tickets
    ensures CallsGuarded(m, AddOp(m, more), fns, ticket)
  {
    hide Begin, Appended, InOrder, Guarded;
    if Defined(m.body) {
      var list := ListOf(m.body);
      AppendedGuarded(m.opts.unique, list, more, m.tickets, fns, ticket);
      if m.body.Idle? && m.memory.Some? {
        var added := Appended(m.opts.unique, list, more, m.tickets);
        BeginGuarded(m.(tickets := m.tickets + |added|), list + added, m.memory.value, |list|, fns, ticket);
      } else {
        AddAppends(m, more);
      }
    }
  }

  lemma {:induction false} RemoveGuarded(m: Machine, gone: seq<Fn>, fns: seq<Fn>, ticket: nat)
    requires Guarded(ListOf(m.body), fns, ticket)
    ensures CallsGuarded(m, RemoveOp(m, gone), fns, ticket)
  {
    hide WithoutAll, Shrunk, ListOf;
    RemoveFilters(m, gone);
    var r := ListOf(RemoveOp(m, gone).body);
    forall i | 0 <= i < |r| && r[i].fn in fns ensures r[i].ticket >= ticket {
      assert r[i] in r;
    }
  }

  lemma {:induction false} DoGuarded(m: Machine, op: Op, fns: seq<Fn>, ticket: nat)
    requires Inv(m) && Allowed(m, op) && Guarded(ListOf(m.body), fns, ticket) && ticket <= m.tickets
    ensures CallsGuarded(m, Do(m, op), fns, ticket)
  {
    hide Begin, Next, Finish, AddOp, RemoveOp, LogOk, QueueOk, PassOk, InOrder, ServedOk;
    match op
    case Add(more) => AddGuarded(m, more, fns, ticket);
    case Remove(gone) => RemoveGuarded(m, gone, fns, ticket);
    case FireWith(data) =>
      if m.body.Idle? {
        BeginGuarded(Serving(m.(accepted := m.accepted + [data]), data), m.body.list, data, 0, fns, ticket);
      }
    case Lock =>
    case Disable =>
    case Empty =>
    case Returned(result) =>
      FinishGuarded(m.(memory := None), ListOf(m.body), fns, ticket);
      FinishGuarded(m, ListOf(m.body), fns, ticket);
      if m.body.Firing? {
        NextGuarded(m, m.body.skipped, m.body.ran, m.body.pending, m.body.data, fns, ticket);
      }
  }

  lemma {:induction false} RunGuarded(m: Machine, ops: seq<Op>, fns: seq<Fn>, ticket: nat)
    requires Inv(m) && IsRun(m, ops) && Guarded(ListOf(m.body), fns, ticket) && ticket <= m.tickets
    ensures CallsGuarded(m, After(m, ops), fns, ticket)
    decreases |ops|
  {
    hide Inv, Do;
    if ops != [] {
      DoInv(m, ops[0]);
      DoGuarded(m, ops[0], fns, ticket);
      RunGuarded(Do(m, ops[0]), ops[1..], fns, ticket);
    }
  }

  /** Whatever happens after `remove`, in the pass under way or later, a removed callback
      is not called again unless it is added again. */
  lemma {:induction false} RemovedNeverCalled(m: Machine, fns: seq<Fn>, ops: seq<Op>, i: nat)
    requires Reachable(m) && IsRun(RemoveOp(m, fns), ops)
    requires |m.log| <= i < |After(RemoveOp(m, fns), ops).log|
    requires After(RemoveOp(m, fns), ops).log[i].entry.fn in fns
    ensures After(RemoveOp(m, fns), ops).log[i].entry.ticket >= m.tickets
  {
    hide Inv;
    ReachableInv(m);
    RemoveInv(m, fns);
    RemovedGone(m, fns);
    RunGuarded(RemoveOp(m, fns), ops, fns, m.tickets);
  }

  lemma {:induction false} RemovedGone(m: Machine, fns: seq<Fn>)
    ensures Guarded(ListOf(RemoveOp(m, fns).body), fns, m.tickets)
    ensures RemoveOp(m, fns).log == m.log && RemoveOp(m, fns).tickets == m.tickets
  {
    hide WithoutAll, Shrunk, ListOf;
    RemoveFilters(m, fns);
    var r := ListOf(RemoveOp(m, fns).body);
    assert forall i :: 0 <= i < |r| ==> r[i] in r;
  }
}
