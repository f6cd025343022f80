/** The closure variables of jQuery.Callbacks (debian/jquery-1.9.1.js): one list with a firing index and
    length that every operation adjusts. Each method is proved to do what the operation of the same
    name does to the split list. */
module CallbackList {
  import opened Common
  import opened Callbacks

  class CallbackList {
    const opts: Options
    var list: seq<Entry>
    var listDefined: bool
    var stack: Option<seq<Data>>
    var memory: Option<Data>
    var fired: bool
    var firing: bool
    var firingLength: int
    var firingIndex: int
    var firingStart: nat
    /** The argument of the `fire` call in progress. */
    var data: Data
    var tickets: nat
    /** The entry being called. */
    var current: Entry
    ghost var skippedCount: nat
    /** The list was emptied in the pass under way. */
    ghost var emptied: bool
    /** A call of a missing entry has thrown, and `firing` was left set. */
    ghost var stuck: bool
    ghost var passes: nat
    ghost var log: seq<Call>
    ghost var accepted: seq<Data>
    ghost var served: seq<Data>
    ghost var servedIn: seq<nat>

    ghost predicate Valid()
      reads this
    {
      && firingStart == 0
      && (firing ==> fired) && (stuck ==> firing)
      && (firing && !stuck ==> firingIndex + 1 >= 0 && firingLength >= 0)
      && (firing && !stuck && listDefined ==>
            if emptied then firingLength == |list| || list == []
            else firingLength == |list| && skippedCount <= firingIndex + 1 <= |list|)
    }

    /** Everything but the list. */
    ghost function Frame(): Machine
      reads this
    {
      Machine(opts, Disabled(None), stack, memory, fired, tickets, passes, log, accepted, served, servedIn)
    }

    /** The variables of the pass under way. */
    ghost function CurrentPass(): Pass
      requires Valid() && firing && !stuck
      reads this
    {
      Pass(firingIndex + 1, firingLength, current, data)
    }

    /** The list cut at the firing index. */
    ghost function View(): Machine
      requires Valid()
      reads this
    {
      Frame().(body :=
        if stuck then Stuck(if listDefined then Some(list) else None)
        else if !firing then if listDefined then Idle(list) else Disabled(None)
        else if !listDefined then Disabled(Some(CurrentPass()))
        else InPass(emptied, list, skippedCount, CurrentPass()))
    }

    /** At most one callback was called, and if so it is the one running. */
    twostate predicate Calls(called: bool)
      reads this
    {
      && log == (if called then old(log) + [Call(passes, current, data)] else old(log))
      && (called ==> firing && listDefined && !stuck)
    }

    constructor (opts: Options)
      ensures Valid() && View() == Create(opts)
    {
      this.opts := opts;
      list, listDefined := [], true;
      stack := if opts.once then None else Some([]);
      memory, fired, firing, stuck := None, false, false, false;
      firingLength, firingIndex, firingStart := 0, 0, 0;
      tickets, passes, log, accepted, served, servedIn := 0, 0, [], [], [], [];
      data, current := 0, Entry(0, 0);
    }

    /** `fire` up to its loop. */
    method Open(d: Data)
      modifies this`memory, this`fired, this`firingIndex, this`firingStart, this`firingLength, this`firing, this`data,
               this`skippedCount, this`passes, this`emptied
      ensures memory == (if opts.memory then Some(d) else None) && passes == old(passes) + 1
      ensures firing && fired && data == d && firingStart == 0 && firingLength == |list| && !emptied
      ensures firingIndex == skippedCount == old(firingStart)
    {
      memory, fired := if opts.memory then Some(d) else None, true;
      firingIndex, firingStart, firingLength, firing, data := firingStart, 0, |list|, true, d;
      skippedCount, passes, emptied := firingIndex, passes + 1, false;
    }

    method Fire(d: Data) returns (called: bool)
      requires listDefined && !firing && !stuck && firingStart <= |list|
      modifies this
      ensures Valid() && Calls(called)
      ensures View() == Begin(old(Frame()), old(list), d, old(firingStart))
      decreases QueueLength(Frame()), 2
    {
      hide Begin, Next, Finish, View, Valid;
      BeginIsNext(Frame(), list, d, firingStart);
      Open(d);
      assert list[skippedCount..firingIndex] == [];
      var threw;
      called, threw := Continue();
    }

    /** The loop test of `fire`: call the next callback or leave the loop. In a list that was emptied there may be
        no entry at the index, and calling it throws. */
    method Continue() returns (called: bool, threw: bool)
      requires listDefined && firing && fired && !stuck && firingStart == 0 && firingIndex >= 0 && firingLength >= 0
      requires if emptied then firingLength == |list| || list == []
               else firingLength == |list| && skippedCount <= firingIndex <= |list|
      modifies this
      ensures Valid() && Calls(called) && (threw <==> stuck)
      ensures !old(emptied) ==>
                View() == Next(old(Frame()), old(list)[..old(skippedCount)],
                               old(list)[old(skippedCount)..old(firingIndex)], old(list)[old(firingIndex)..], old(data))
      ensures old(emptied) ==>
                View() == Resume(old(Frame()), old(list),
                                 Pass(old(firingIndex), old(firingLength), old(current), old(data)))
      decreases QueueLength(Frame()), 1
    {
      hide Begin, Finish;
      called, threw := false, false;
      if firingIndex < firingLength {
        if firingIndex < |list| {
          assert !emptied ==>
                   list[skippedCount..firingIndex + 1] == list[skippedCount..firingIndex] + [list[firingIndex]];
          current := list[firingIndex];
          log := log + [Call(passes, current, data)];
          called := true;
        } else {
          stuck, threw := true, true;
        }
      } else {
        assert !emptied ==> list[..skippedCount] + list[skippedCount..firingIndex] == list;
        FinishPlain(Frame(), list);
        called := EndPass();
      }
    }

    /** What `fire` does after its loop while the list is still there. */
    method EndPass() returns (called: bool)
      requires listDefined && !stuck && firingStart == 0
      modifies this
      ensures Valid() && Calls(called)
      ensures View() == Finish(old(Frame()), old(list))
      decreases QueueLength(Frame()), 0
    {
      firing, called := false, false;
      if stack.Some? {
        if stack.value != [] {
          var d := stack.value[0];
          served, servedIn := served + [d], servedIn + [passes + 1];
          stack := Some(stack.value[1..]);
          called := Fire(d);
        }
      } else if memory.Some? {
        list := [];
      } else {
        listDefined := false;
      }
    }

    /** A callback has returned. */
    method Returned(result: bool) returns (called: bool, threw: bool)
      requires Valid() && firing && !stuck
      modifies this
      ensures Valid() && View() == ReturnOp(old(View()), result)
      ensures Calls(called) && (threw <==> stuck)
    {
      hide Begin, Next, Finish, Resume;
      called, threw := false, false;
      if !listDefined {
        firing := false;
      } else if !result && opts.stopOnFalse {
        FinishIgnoresBody(View().(memory := None), Disabled(None), list);
        FinishPlain(Frame().(memory := None), list);
        assert !emptied ==>
                 list == list[..skippedCount] + list[skippedCount..firingIndex + 1] + list[firingIndex + 1..];
        memory := None;
        called := EndPass();
      } else {
        ghost var was := View();
        if emptied {
          ResumeIgnoresBody(was, Disabled(None), list, CurrentPass());
        } else {
          NextIgnoresBody(was, Disabled(None), was.body.skipped, was.body.ran, was.body.pending, data);
        }
        firingIndex := firingIndex + 1;
        called, threw := Continue();
      }
    }

    method FireWith(d: Data) returns (called: bool)
      requires Valid()
      modifies this
      ensures Valid() && View() == FireOp(old(View()), d)
      ensures Calls(called)
    {
      hide Begin, Next, Finish;
      called := false;
      if listDefined && (!fired || stack.Some?) {
        if firing {
          stack := Some(stack.value + [d]);
          accepted := accepted + [d];
        } else {
          BeginIgnoresBody(Serving(View().(accepted := accepted + [d]), d), Disabled(None), list, d, 0);
          accepted, served, servedIn := accepted + [d], served + [d], servedIn + [passes + 1];
          called := Fire(d);
        }
      }
    }

    method DisableList()
      requires Valid()
      modifies this
      ensures Valid() && View() == DisableOp(old(View()))
      ensures Calls(false)
    {
      listDefined, stack, memory := false, None, None;
    }

    method LockList()
      requires Valid()
      modifies this
      ensures Valid() && View() == LockOp(old(View()))
      ensures Calls(false)
    {
      stack := None;
      if memory.None? {
        DisableList();
      }
    }

    /** Replaces the list, but not the length and index of a pass under way. */
    method EmptyList()
      requires Valid()
      modifies this
      ensures Valid() && View() == EmptyOp(old(View()))
      ensures Calls(false)
    {
      list, listDefined := [], true;
      if firing {
        emptied := true;
      }
    }

    /** Adds callbacks: to the pass under way, or to be called at once if the list remembers. */
    method AddAll(fns: seq<Fn>) returns (called: bool)
      requires Valid()
      modifies this
      ensures Valid() && View() == AddOp(old(View()), fns)
      ensures Calls(called)
    {
      hide Begin, Next, Finish, Appended;
      called := false;
      if listDefined {
        if firing {
          AddToPass(fns);
        } else {
          called := AddIdle(fns);
        }
      }
    }

    method AddToPass(fns: seq<Fn>)
      requires Valid() && listDefined && firing
      modifies this`list, this`tickets, this`firingLength
      ensures Valid() && View() == AddOp(old(View()), fns)
    {
      hide AddOp, Appended, ListOf, InPass, Grown;
      ghost var more, was := Appended(opts.unique, list, fns, tickets), View();
      assert ListOf(Stuck(Some(list))) == list && Grown(Stuck(Some(list)), list, more) == Stuck(Some(list + more)) by {
        StuckGrows(list, more);
      }
      if !stuck {
        InPassGrows(emptied, list, skippedCount, CurrentPass(), more);
        InPassRuns(emptied, list, skippedCount, CurrentPass());
      }
      AddGrows(was, fns);
      Push(fns);
      firingLength := |list|;
    }

    method AddIdle(fns: seq<Fn>) returns (called: bool)
      requires Valid() && listDefined && !firing
      modifies this
      ensures Valid() && View() == AddOp(old(View()), fns)
      ensures Calls(called)
    {
      hide Begin, Next, Finish, Appended;
      called := false;
      var start := |list|;
      ghost var before := View();
      Push(fns);
      if memory.Some? {
        BeginIgnoresBody(before.(tickets := tickets), Disabled(None), list, memory.value, start);
        firingStart := start;
        called := Fire(memory.value);
      }
    }

    /** `list.push`, unless the list must stay unique. */
    method Push(fns: seq<Fn>)
      modifies this`list, this`tickets
      ensures list == old(list) + Appended(opts.unique, old(list), fns, old(tickets))
      ensures tickets == old(tickets) + |Appended(opts.unique, old(list), fns, old(tickets))|
    {
      ghost var all := Appended(opts.unique, list, fns, tickets);
      assert fns[0..] == fns;
      for i := 0 to |fns|
        invariant |list| >= |old(list)|
        invariant list + Appended(opts.unique, list, fns[i..], tickets) == old(list) + all
        invariant tickets == old(tickets) + |list| - |old(list)|
      {
        assert fns[i..][0] == fns[i] && fns[i..][1..] == fns[i + 1..];
        if !opts.unique || !Has(list, fns[i]) {
          ghost var was := list;
          list := list + [Entry(fns[i], tickets)];
          tickets := tickets + 1;
          assert was + ([Entry(fns[i], tickets - 1)] + Appended(opts.unique, list, fns[i + 1..], tickets)) ==
                 list + Appended(opts.unique, list, fns[i + 1..], tickets);
        }
      }
    }

    method RemoveAll(fns: seq<Fn>)
      requires Valid()
      modifies this
      ensures Valid() && View() == RemoveOp(old(View()), fns)
      ensures Calls(false)
    {
      hide View, Valid, RemoveOp;
      RemoveUndefined(fns);
      if listDefined {
        ghost var was := View();
        assert fns[0..] == fns;
        for i := 0 to |fns|
          invariant Valid() && listDefined && log == old(log)
          invariant RemoveOp(View(), fns[i..]) == RemoveOp(was, fns)
        {
          assert fns[i..][0] == fns[i] && fns[i..][1..] == fns[i + 1..];
          RemoveInTurn(View(), fns[i..]);
          RemoveOne(fns[i]);
        }
        assert fns[|fns|..] == [];
        RemoveNothing();
      }
    }

    method RemoveOne(fn: Fn)
      requires Valid() && listDefined
      modifies this
      ensures Valid() && listDefined && View() == RemoveOp(old(View()), [fn]) && Calls(false)
    {
      hide Without, WithoutAll;
      OneGone(fn);
      if firing && emptied && !stuck {
        ShorterIsShrunk(CurrentPass(), list, fn);
      }
      RemoveEach(fn);
    }

    lemma RemoveUndefined(fns: seq<Fn>)
      requires Valid()
      ensures !listDefined ==> RemoveOp(View(), fns) == View()
    {
    }

    lemma RemoveNothing()
      requires Valid()
      ensures RemoveOp(View(), []) == View()
    {
    }

    /** Splices out every occurrence and moves the firing index and length along. */
    method RemoveEach(fn: Fn)
      requires Valid() && listDefined
      modifies this`list, this`firingLength, this`firingIndex, this`skippedCount
      ensures Valid() && list == Without(old(list), fn)
      ensures firing && !stuck && !emptied ==>
                && list[..skippedCount] == Without(old(list[..skippedCount]), fn)
                && list[skippedCount..firingIndex + 1] == Without(old(list[skippedCount..firingIndex + 1]), fn)
                && list[firingIndex + 1..] == Without(old(list[firingIndex + 1..]), fn)
      ensures firing && !stuck && emptied ==> CurrentPass() == Shorter(old(CurrentPass()), old(list), fn)
    {
      hide Without, Calls, SameRest;
      ghost var split := firing && !stuck && !emptied;
      ghost var a0: nat := if split then skippedCount else 0;
      ghost var b0: nat := if split then firingIndex + 1 else Cut();
      ghost var a: nat, b: nat, was := a0, b0, list;
      SameRestSelf(list, a, b, fn);
      var index := InArray(fn, list, 0);
      while index < |list|
        invariant Valid() && 0 <= index <= |list|
        invariant index < |list| ==> list[index].fn == fn
        invariant forall k :: 0 <= k < index ==> list[k].fn != fn
        invariant if split then a == skippedCount && b == firingIndex + 1 else a == 0 && b == Cut()
        invariant Trimmed(was, old(firingIndex) - b0, old(firingLength), b)
        invariant SameRest(was, a0, b0, list, a, b, fn)
        decreases |list| - index
      {
        SplicePart(list, index, a, b, fn);
        SameRestChain(was, a0, b0, list, a, b, list[..index] + list[index + 1..],
                      if index < a then a - 1 else a, if index < b then b - 1 else b, fn);
        a, b := if index < a then a - 1 else a, if index < b then b - 1 else b;
        SpliceAt(index);
        index := InArray(fn, list, index);
      }
      RestIsWithout(was, a0, b0, list, a, b, fn);
    }

    /** How far the index of a pass over an emptied list lies behind the cut does not change, and the length goes
        with the list. */
    ghost predicate Trimmed(was: seq<Entry>, gap: int, length: int, cut: int)
      reads this
    {
      firing && !stuck && emptied ==> firingIndex - cut == gap && firingLength == if was == [] then length else |list|
    }

    /** Where the index of a pass over an emptied list cuts it. */
    ghost function Cut(): nat
      requires Valid()
      reads this
    {
      if firing && !stuck && emptied then if firingIndex + 1 < |list| then firingIndex + 1 else |list|
      else 0
    }

    /** `list.splice( index, 1 )` and the firing indexes that go with it */
    method SpliceAt(index: nat)
      requires Valid() && listDefined && index < |list|
      modifies this`list, this`firingLength, this`firingIndex, this`skippedCount
      ensures Valid() && list == old(list)[..index] + old(list)[index + 1..]
      ensures firing && !stuck ==>
                && (!emptied ==>
                      skippedCount == if index < old(skippedCount) then old(skippedCount) - 1 else old(skippedCount))
                && firingIndex == (if index <= old(firingIndex) then old(firingIndex) - 1 else old(firingIndex))
                && firingLength == old(firingLength) - 1
    {
      list := list[..index] + list[index + 1..];
      if firing {
        if index < skippedCount {
          skippedCount := skippedCount - 1;
        }
        if index <= firingLength {
          firingLength := firingLength - 1;
        }
        if index <= firingIndex {
          firingIndex := firingIndex - 1;
        }
      }
    }
  }

  lemma {:induction false} RemoveInTurn(m: Machine, fns: seq<Fn>)
    requires fns != []
    ensures RemoveOp(m, fns) == RemoveOp(RemoveOp(m, [fns[0]]), fns[1..])
  {
    hide Without, Shrunk;
    OneGone(fns[0]);
    if m.body.Emptied? {
      ShrunkStep(m.body.pass, m.body.list, fns);
      ShorterIsShrunk(m.body.pass, m.body.list, fns[0]);
    }
  }

  lemma {:induction false} ShorterIsShrunk(pass: Pass, list: seq<Entry>, fn: Fn)
    ensures Shorter(pass, list, fn) == Shrunk(pass, list, [fn])
  {
    hide Without, WithoutAll;
    OneGone(fn);
  }

  lemma {:induction false} OneGone(fn: Fn)
    ensures forall s :: WithoutAll(s, [fn]) == Without(s, fn)
  {
    forall s ensures WithoutAll(s, [fn]) == Without(s, fn) {
      assert [fn][1..] == [];
    }
  }

  /** What removing every occurrence of one callback does to a pass over an emptied list. */
  ghost function Shorter(pass: Pass, list: seq<Entry>, fn: Fn): Pass {
    var cut := if pass.next < |list| then pass.next else |list|;
    pass.(next := |Without(list[..cut], fn)| + pass.next - cut,
          length := if list == [] then pass.length else |Without(list, fn)|)
  }

  lemma {:induction false} ShrunkStep(pass: Pass, list: seq<Entry>, fns: seq<Fn>)
    requires fns != []
    ensures Shrunk(pass, list, fns) == Shrunk(Shorter(pass, list, fns[0]), Without(list, fns[0]), fns[1..])
  {
    hide Without;
    var cut := if pass.next < |list| then pass.next else |list|;
    var front, back := Without(list[..cut], fns[0]), Without(list[cut..], fns[0]);
    assert list == list[..cut] + list[cut..];
    WithoutConcat(list[..cut], list[cut..], fns[0]);
    WithoutNothing(fns);
    assert cut == |list| ==> list[cut..] == [];
    assert (front + back)[..|front|] == front;
  }

  lemma {:induction false} WithoutNothing(fns: seq<Fn>)
    ensures WithoutAll([], fns) == [] && (fns != [] ==> Without([], fns[0]) == [])
    decreases |fns|
  {
    if fns != [] {
      WithoutNothing(fns[1..]);
    }
  }

  /** `jQuery.inArray( fn, list, from )`, with the length for -1 */
  method InArray(fn: Fn, list: seq<Entry>, from: nat) returns (index: nat)
    requires from <= |list|
    ensures from <= index <= |list|
    ensures index < |list| ==> list[index].fn == fn
    ensures forall k :: from <= k < index ==> list[k].fn != fn
  {
    index := from;
    while index < |list| && list[index].fn != fn
      invariant from <= index <= |list|
      invariant forall k :: from <= k < index ==> list[k].fn != fn
    {
      index := index + 1;
    }
  }

  /** Apart from occurrences of `fn`, the parts of two lists agree. */
  ghost predicate SameRest(s: seq<Entry>, a: nat, b: nat, s': seq<Entry>, a': nat, b': nat, fn: Fn) {
    && a <= b <= |s| && a' <= b' <= |s'|
    && Without(s'[..a'], fn) == Without(s[..a], fn)
    && Without(s'[a'..b'], fn) == Without(s[a..b], fn)
    && Without(s'[b'..], fn) == Without(s[b..], fn)
  }

  lemma {:induction false} SameRestSelf(s: seq<Entry>, a: nat, b: nat, fn: Fn)
    requires a <= b <= |s|
    ensures SameRest(s, a, b, s, a, b, fn)
  {
  }

  lemma {:induction false} SameRestChain(r: seq<Entry>, a0: nat, b0: nat, s: seq<Entry>, a: nat, b: nat,
                                         t: seq<Entry>, a': nat, b': nat, fn: Fn)
    requires SameRest(r, a0, b0, s, a, b, fn) && SameRest(s, a, b, t, a', b', fn)
    ensures SameRest(r, a0, b0, t, a', b', fn)
  {
    hide Without;
  }

  lemma {:induction false} WithoutNone(s: seq<Entry>, fn: Fn)
    requires forall k :: 0 <= k < |s| ==> s[k].fn != fn
    ensures Without(s, fn) == s
  {
    if s != [] {
      WithoutNone(s[..|s| - 1], fn);
      assert s == s[..|s| - 1] + [s[|s| - 1]];
    }
  }

  lemma {:induction false} WithoutDropped(u: seq<Entry>, e: Entry, v: seq<Entry>, fn: Fn)
    requires e.fn == fn
    ensures Without(u + [e] + v, fn) == Without(u + v, fn)
  {
    WithoutConcat(u + [e], v, fn);
    WithoutConcat(u, [e], fn);
    WithoutConcat(u, v, fn);
    assert Without([e], fn) == Without([], fn) == [];
  }

  /** What a splice does to a part of the list that contains the position, or lies after or before it. */
  lemma {:induction false} SpliceInside(s: seq<Entry>, i: nat, lo: nat, hi: nat, fn: Fn)
    requires lo <= i < hi <= |s| && s[i].fn == fn
    ensures Without((s[..i] + s[i + 1..])[lo..hi - 1], fn) == Without(s[lo..hi], fn)
  {
    hide Without;
    WithoutDropped(s[lo..i], s[i], s[i + 1..hi], fn);
    assert s[lo..hi] == s[lo..i] + [s[i]] + s[i + 1..hi];
    assert (s[..i] + s[i + 1..])[lo..hi - 1] == s[lo..i] + s[i + 1..hi];
  }

  lemma {:induction false} SpliceOutside(s: seq<Entry>, i: nat, lo: nat, hi: nat)
    requires i < |s| && lo <= hi <= |s|
    ensures i < lo ==> (s[..i] + s[i + 1..])[lo - 1..hi - 1] == s[lo..hi]
    ensures hi <= i ==> (s[..i] + s[i + 1..])[lo..hi] == s[lo..hi]
  {
  }

  lemma {:induction false} SplicePart(s: seq<Entry>, i: nat, a: nat, b: nat, fn: Fn)
    requires i < |s| && s[i].fn == fn && a <= b <= |s|
    ensures SameRest(s, a, b, s[..i] + s[i + 1..], if i < a then a - 1 else a, if i < b then b - 1 else b, fn)
  {
    hide Without;
    var s', n := s[..i] + s[i + 1..], |s| - 1;
    assert s[..a] == s[0..a] && s[b..] == s[b..|s|];
    if i < a {
      SpliceInside(s, i, 0, a, fn);
      SpliceOutside(s, i, a, b);
      SpliceOutside(s, i, b, |s|);
      assert s'[..a - 1] == s'[0..a - 1] && s'[b - 1..] == s'[b - 1..n];
    } else if i < b {
      SpliceOutside(s, i, 0, a);
      SpliceInside(s, i, a, b, fn);
      SpliceOutside(s, i, b, |s|);
      assert s'[..a] == s'[0..a] && s'[b - 1..] == s'[b - 1..n];
    } else {
      SpliceOutside(s, i, 0, a);
      SpliceOutside(s, i, a, b);
      SpliceInside(s, i, b, |s|, fn);
      assert s'[..a] == s'[0..a] && s'[b..] == s'[b..n];
    }
  }

  /** Once no occurrence is left, each part and the whole are what the filter leaves. */
  lemma {:induction false} RestIsWithout(was: seq<Entry>, a0: nat, b0: nat, list: seq<Entry>, a: nat, b: nat, fn: Fn)
    requires SameRest(was, a0, b0, list, a, b, fn) && forall k :: 0 <= k < |list| ==> list[k].fn != fn
    ensures list[..a] == Without(was[..a0], fn) && list[a..b] == Without(was[a0..b0], fn)
    ensures list[b..] == Without(was[b0..], fn)
    ensures list == Without(was, fn) && list[..b] == Without(was[..b0], fn)
  {
    hide Without;
    WithoutNone(list[..a], fn);
    WithoutNone(list[a..b], fn);
    WithoutNone(list[b..], fn);
    WithoutConcat(was[..a0], was[a0..b0], fn);
    WithoutConcat(was[..b0], was[b0..], fn);
    assert was[..a0] + was[a0..b0] == was[..b0] && was[..b0] + was[b0..] == was;
    assert list[..a] + list[a..b] == list[..b] && list[..b] + list[b..] == list;
  }

  /** A list in the middle of a pass. */
  ghost function InPass(emptied: bool, list: seq<Entry>, skippedCount: nat, pass: Pass): Body
    requires !emptied ==> skippedCount <= pass.next <= |list|
  {
    if emptied then Emptied(list, pass)
    else Firing(list[..skippedCount], list[skippedCount..pass.next], list[pass.next..], pass.current, pass.data)
  }

  lemma {:induction false} InPassGrows(emptied: bool, list: seq<Entry>, skippedCount: nat, pass: Pass, more: seq<Entry>)
    requires !emptied ==> skippedCount <= pass.next <= |list|
    ensures ListOf(InPass(emptied, list, skippedCount, pass)) == list
    ensures InPass(emptied, list + more, skippedCount, pass.(length := |list + more|)) ==
            Grown(InPass(emptied, list, skippedCount, pass), list, more)
  {
    if !emptied {
      CutGrown(list, more, skippedCount, pass.next);
    }
  }

  /** A list in the middle of a pass, with more entries at its end. */
  ghost function Grown(body: Body, list: seq<Entry>, more: seq<Entry>): Body {
    match body
    case Firing(_, _, pending, _, _) => body.(pending := pending + more)
    case Emptied(_, pass) => Emptied(list + more, pass.(length := |list + more|))
    case _ => Stuck(Some(list + more))
  }

  lemma {:induction false} InPassRuns(emptied: bool, list: seq<Entry>, skippedCount: nat, pass: Pass)
    requires !emptied ==> skippedCount <= pass.next <= |list|
    ensures Defined(InPass(emptied, list, skippedCount, pass)) && !InPass(emptied, list, skippedCount, pass).Idle?
  {
  }

  lemma {:induction false} StuckGrows(list: seq<Entry>, more: seq<Entry>)
    ensures ListOf(Stuck(Some(list))) == list && Grown(Stuck(Some(list)), list, more) == Stuck(Some(list + more))
  {
  }

  lemma {:induction false} AddGrows(m: Machine, fns: seq<Fn>)
    requires Defined(m.body) && !m.body.Idle?
    ensures var more := Appended(m.opts.unique, ListOf(m.body), fns, m.tickets);
            AddOp(m, fns) == m.(tickets := m.tickets + |more|, body := Grown(m.body, ListOf(m.body), more))
  {
    hide Appended;
  }

  /** Appending to a list lengthens only its last part. */
  lemma {:induction false} CutGrown(s: seq<Entry>, more: seq<Entry>, a: nat, b: nat)
    requires a <= b <= |s|
    ensures s[..a] + s[a..b] + s[b..] == s
    ensures (s + more)[..a] == s[..a] && (s + more)[a..b] == s[a..b] && (s + more)[b..] == s[b..] + more
  {
  }

  lemma {:induction false} BeginIsNext(m: Machine, list: seq<Entry>, data: Data, start: nat)
    requires start <= |list|
    ensures Begin(m, list, data, start) ==
            Next(Opened(m, data), list[..start], [], list[start..], data)
  {
  }

  lemma {:induction false} ResumeIgnoresBody(m: Machine, body: Body, list: seq<Entry>, pass: Pass)
    ensures Resume(m, list, pass) == Resume(m.(body := body), list, pass)
  {
    if pass.next >= pass.length {
      FinishIgnoresBody(m, body, list);
    }
  }

  /** Starting, continuing or ending a pass replaces the body, whatever it was. */
  lemma {:induction false} NextIgnoresBody(m: Machine, body: Body, skipped: seq<Entry>, ran: seq<Entry>,
                                           pending: seq<Entry>, data: Data)
    ensures Next(m, skipped, ran, pending, data) == Next(m.(body := body), skipped, ran, pending, data)
    decreases QueueLength(m), 1
  {
    if pending == [] {
      FinishIgnoresBody(m, body, skipped + ran);
    }
  }

  lemma {:induction false} FinishIgnoresBody(m: Machine, body: Body, list: seq<Entry>)
    ensures Finish(m, list) == Finish(m.(body := body), list)
    decreases QueueLength(m), 0
  {
    if m.stack.Some? && m.stack.value != [] {
      var data := m.stack.value[0];
      BeginIgnoresBody(Serving(m.(stack := Some(m.stack.value[1..])), data), body, list, data, 0);
    }
  }

  lemma {:induction false} BeginIgnoresBody(m: Machine, body: Body, list: seq<Entry>, data: Data, start: nat)
    requires start <= |list|
    ensures Begin(m, list, data, start) == Begin(m.(body := body), list, data, start)
    decreases QueueLength(m), 2
  {
    NextIgnoresBody(Opened(m, data), body, list[..start], [], list[start..], data);
  }
}
