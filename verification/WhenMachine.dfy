/** jQuery.when (debian/jquery-1.9.1.js): a master deferred that waits for any number of others. Master and
    subordinates are deferreds; the functions that `when` adds to the lists of a subordinate run when those lists
    call them, and a deferred may be given more than once. */
module WhenMachine {
  import opened Common
  import C = Callbacks
  import D = DeferredMachine

  type Value = nat
  type Data = C.Data
  type Deferred = D.Deferred

  /** A plain value, or the deferred of a given number. */
  datatype Arg = Plain(value: Value) | Promise(sub: nat)

  /** An element of resolveValues or progressValues: an argument as given, or what a deferred passed on. */
  datatype Slot = Original(arg: Arg) | Undefined | One(value: Value) | Many(values: seq<Value>)

  // ----- The functions given to subordinates -----

  /** The numbers of the functions that `when` makes for position `k`; others use numbers from `Others` on. */
  function OurFn(which: D.Which, k: nat): C.Fn {
    match which case Done => 3 * k + 3 case Fail => 3 * k + 4 case Progress => 3 * k + 5
  }

  function Others(args: seq<Arg>): C.Fn {
    3 * |args| + 3
  }

  /** The position a function was made for, if it is one of ours. */
  function PositionOf(fn: C.Fn): nat {
    if fn < 3 then 0 else (fn - 3) / 3
  }

  predicate IsOurs(args: seq<Arg>, which: D.Which, fn: C.Fn) {
    PositionOf(fn) < |args| && fn == OurFn(which, PositionOf(fn))
  }

  lemma {:induction false} OurPosition(args: seq<Arg>, which: D.Which, k: nat)
    requires k < |args|
    ensures PositionOf(OurFn(which, k)) == k && IsOurs(args, which, OurFn(which, k))
    ensures !D.IsInternal(OurFn(which, k)) && OurFn(which, k) < Others(args)
  {
  }

  // ----- The closure variables -----

  /** `content` says what an argument list holds, and `store` what the lists made for the master hold.
      The last two fields are history: what the master was asked, and the positions that were rejected. */
  datatype Closure = Closure(
    args: seq<Arg>,
    content: Data -> seq<Value>,
    looping: bool,
    i: nat,
    remaining: int,
    values: seq<Slot>,
    progress: seq<Slot>,
    store: seq<seq<Slot>>,
    master: Deferred,
    masterRun: seq<D.Event>,
    failures: seq<nat>)

  /** A single promise is returned as it is, without a master of its own. */
  predicate HasMaster(args: seq<Arg>) {
    |args| != 1 || args[0].Plain?
  }

  function Begin(args: seq<Arg>, content: Data -> seq<Value>): Closure {
    Closure(args, content, true, if |args| > 1 then 0 else |args|, if |args| > 1 then |args| else 0,
            seq(|args|, k requires 0 <= k < |args| => Original(args[k])), seq(|args|, _ => Undefined), [],
            D.NewDeferred(), [], [])
  }

  /** The argument list that an element was made of. */
  function Arguments(slot: Slot): seq<Value> {
    match slot
    case Many(values) => values
    case One(value) => [value]
    case _ => []
  }

  /** The element passes on exactly these arguments: one as itself, several as a list. */
  predicate Carries(slot: Slot, values: seq<Value>) {
    !slot.Original? && Arguments(slot) == values && (slot.Many? <==> |values| > 1)
  }

  /** `arguments.length > 1 ? core_slice.call( arguments ) : value` */
  function Collected(results: seq<Value>): Slot {
    if |results| > 1 then Many(results) else if |results| == 1 then One(results[0]) else Undefined
  }

  /** resolveWith or notifyWith of the master, with a copy of the values */
  function FireMaster(c: Closure, which: D.Which, values: seq<Slot>): Closure {
    Ask(c.(store := c.store + [values]), D.Fire(which, |c.store|))
  }

  function Ask(c: Closure, e: D.Event): Closure
    requires D.Allowed(c.master, e)
  {
    c.(master := D.React(c.master, e), masterRun := c.masterRun + [e])
  }

  /** A function of position `k` is called with the given arguments: one of the two made by updateFunc, or the
      master's reject. */
  function Called(c: Closure, which: D.Which, k: nat, data: Data): Closure
    requires k < |c.values| && k < |c.progress|
  {
    match which
    case Done =>
      var c' := c.(values := c.values[k := Collected(c.content(data))], remaining := c.remaining - 1);
      if c'.remaining == 0 then FireMaster(c', D.Done, c'.values) else c'
    case Fail => Ask(c.(failures := c.failures + [k]), D.Fire(D.Fail, data))
    case Progress =>
      var c' := c.(progress := c.progress[k := Collected(c.content(data))]);
      FireMaster(c', D.Progress, c'.progress)
  }

  /** The call a list has just made. */
  function NewCall(before: C.Machine, after: C.Machine): Option<C.Call> {
    if |after.log| > |before.log| then Some(after.log[|after.log| - 1]) else None
  }

  /** A list has made a call, perhaps of one of our functions. */
  function Heed(c: Closure, which: D.Which, call: Option<C.Call>): Closure
    requires |c.values| == |c.progress| == |c.args|
  {
    if call.Some? && IsOurs(c.args, which, call.value.entry.fn)
    then Called(c, which, PositionOf(call.value.entry.fn), call.value.data) else c
  }

  /** Something happens to a subordinate. */
  function Deliver(c: Closure, d: Deferred, e: D.Event): (Closure, Deferred)
    requires D.Allowed(d, e) && |c.values| == |c.progress| == |c.args|
  {
    var d' := D.React(d, e);
    (Heed(c, e.which, NewCall(D.List(d, e.which), D.List(d', e.which))), d')
  }

  function Listening(which: D.Which, k: nat): D.Event {
    D.Listen(which, [OurFn(which, k)])
  }

  /** `.done( ).fail( ).progress( )` */
  function Attach(c: Closure, d: Deferred): (Closure, Deferred)
    requires |c.values| == |c.progress| == |c.args|
  {
    var k := c.i;
    var r1 := Deliver(c, d, Listening(D.Done, k));
    var r2 := Deliver(r1.0, r1.1, Listening(D.Fail, k));
    Deliver(r2.0, r2.1, Listening(D.Progress, k))
  }

  function LoopEnded(c: Closure): Closure {
    var c' := c.(looping := false);
    if c.remaining == 0 then FireMaster(c', D.Done, c'.values) else c'
  }

  // ----- A call of `when` and its subordinates -----

  /** `runs` is history: what each subordinate has been asked since it was made. */
  datatype When = When(c: Closure, subs: seq<Deferred>, runs: seq<seq<D.Event>>)

  /** A step of the loop over the arguments, its end, or anything that happens to a subordinate or, from outside,
      to the master, callbacks returning included. */
  datatype Event = Visit | EndLoop | Sub(j: nat, e: D.Event) | Master(e: D.Event)

  ghost predicate IsDeferred(d: Deferred, run: seq<D.Event>) {
    D.IsRun(D.NewDeferred(), run) && d == D.After(D.NewDeferred(), run)
  }

  ghost predicate Foreign(args: seq<Arg>, e: D.Event) {
    e.Listen? ==> forall i :: 0 <= i < |e.fns| ==> e.fns[i] >= Others(args)
  }

  ghost predicate Sized(w: When) {
    && |w.c.values| == |w.c.progress| == |w.c.args| && |w.runs| == |w.subs|
    && forall k :: 0 <= k < |w.c.args| && w.c.args[k].Promise? ==> w.c.args[k].sub < |w.subs|
  }

  /** The deferreds may be in any state, but know nothing of this call yet. */
  ghost predicate CanStart(args: seq<Arg>, subs: seq<Deferred>, runs: seq<seq<D.Event>>) {
    && HasMaster(args) && |runs| == |subs|
    && (forall k :: 0 <= k < |args| && args[k].Promise? ==> args[k].sub < |subs|)
    && (forall j :: 0 <= j < |subs| ==> IsDeferred(subs[j], runs[j]))
    && (forall j, i :: 0 <= j < |subs| && 0 <= i < |runs[j]| ==> Foreign(args, runs[j][i]))
  }

  function Start(args: seq<Arg>, content: Data -> seq<Value>, subs: seq<Deferred>, runs: seq<seq<D.Event>>): When {
    When(Begin(args, content), subs, runs)
  }

  ghost predicate Allowed(w: When, e: Event) {
    && Sized(w)
    && match e
       case Visit => w.c.looping && w.c.i < |w.c.args|
       case EndLoop => w.c.looping && w.c.i == |w.c.args|
       case Sub(j, e) => j < |w.subs| && D.Allowed(w.subs[j], e) && Foreign(w.c.args, e)
       case Master(e) => D.Allowed(w.c.master, e) && !e.Fire?
  }

  ghost function Delivered(w: When, j: nat, e: D.Event): When
    requires Sized(w) && j < |w.subs| && D.Allowed(w.subs[j], e)
  {
    var r := Deliver(w.c, w.subs[j], e);
    When(r.0, w.subs[j := r.1], w.runs[j := w.runs[j] + [e]])
  }

  ghost function React(w: When, e: Event): When
    requires Allowed(w, e)
  {
    match e
    case Visit =>
      var w' := if w.c.args[w.c.i].Plain? then w.(c := w.c.(remaining := w.c.remaining - 1)) else Attached(w, w.c.i);
      w'.(c := w'.c.(i := w.c.i + 1))
    case EndLoop => w.(c := LoopEnded(w.c))
    case Sub(j, e) => Delivered(w, j, e)
    case Master(e) => w.(c := Ask(w.c, e))
  }

  /** The three functions of position `k` are given to its subordinate. */
  ghost function Attached(w: When, k: nat): When
    requires Sized(w) && k < |w.c.args| && w.c.args[k].Promise?
  {
    var j := w.c.args[k].sub;
    DeliveredSized(w, j, Listening(D.Done, k));
    var w1 := Delivered(w, j, Listening(D.Done, k));
    DeliveredSized(w1, j, Listening(D.Fail, k));
    var w2 := Delivered(w1, j, Listening(D.Fail, k));
    Delivered(w2, j, Listening(D.Progress, k))
  }

  lemma {:induction false} HeedKeeps(c: Closure, which: D.Which, call: Option<C.Call>)
    requires |c.values| == |c.progress| == |c.args|
    ensures var c' := Heed(c, which, call);
            && c'.args == c.args && |c'.values| == |c'.progress| == |c.args| && c'.content == c.content
            && c'.i == c.i && c'.looping == c.looping
  {
    hide D.React;
  }

  lemma {:induction false} DeliverKeeps(c: Closure, d: Deferred, e: D.Event)
    requires |c.values| == |c.progress| == |c.args| && D.Allowed(d, e)
    ensures Deliver(c, d, e).0.i == c.i
  {
    hide D.React, Heed;
    HeedKeeps(c, e.which, NewCall(D.List(d, e.which), D.List(D.React(d, e), e.which)));
  }

  lemma {:induction false} DeliveredSized(w: When, j: nat, e: D.Event)
    requires Sized(w) && j < |w.subs| && D.Allowed(w.subs[j], e)
    ensures Sized(Delivered(w, j, e)) && Delivered(w, j, e).c.args == w.c.args && |Delivered(w, j, e).subs| == |w.subs|
    ensures Delivered(w, j, e).c.i == w.c.i && Delivered(w, j, e).c.looping == w.c.looping
    ensures Delivered(w, j, e).c.content == w.c.content
  {
    hide D.React, Heed;
    HeedKeeps(w.c, e.which, NewCall(D.List(w.subs[j], e.which), D.List(D.React(w.subs[j], e), e.which)));
  }

  /** The step of the loop, seen from the closure and one subordinate. */
  lemma {:induction false} AttachedIsAttach(w: When)
    requires Sized(w) && w.c.i < |w.c.args| && w.c.args[w.c.i].Promise?
    ensures var j := w.c.args[w.c.i].sub;
            var r := Attach(w.c, w.subs[j]);
            Attached(w, w.c.i).c == r.0 && Attached(w, w.c.i).subs == w.subs[j := r.1]
  {
    hide D.React, Heed, NewCall;
    var k, j := w.c.i, w.c.args[w.c.i].sub;
    DeliveredSized(w, j, Listening(D.Done, k));
    var w1 := Delivered(w, j, Listening(D.Done, k));
    DeliveredSized(w1, j, Listening(D.Fail, k));
  }

  // ----- What a subordinate's log says -----

  ghost predicate HasCalled(d: Deferred, which: D.Which, fn: C.Fn) {
    exists n :: 0 <= n < |D.List(d, which).log| && D.List(d, which).log[n].entry.fn == fn
  }

  /** A list that made calls belongs to the way its deferred was first settled, and calls what it was given. */
  lemma {:induction false} LogKnown(d: Deferred, run: seq<D.Event>, which: D.Which)
    requires IsDeferred(d, run) && which != D.Progress && D.List(d, which).log != []
    ensures D.FirstSettle(run).Some? && D.FirstSettle(run).value.0 == which
    ensures D.SettledBy(d, which, D.FirstSettle(run).value.1)
    ensures D.Hears(D.List(d, which), D.INTERNAL + D.Listened(run, which))
  {
    hide D.Hears;
    D.SettledByFirst(run);
    D.EveryListenerHeard(run);
  }

  /** One of our functions was called: it had been given to the list, and with the data of the settlement. */
  lemma {:induction false} CalledGiven(d: Deferred, run: seq<D.Event>, which: D.Which, n: nat)
    requires IsDeferred(d, run) && which != D.Progress && n < |D.List(d, which).log|
    requires !D.IsInternal(D.List(d, which).log[n].entry.fn)
    ensures D.FirstSettle(run) == Some((which, D.List(d, which).log[n].data))
    ensures n >= 3 && n - 3 < |D.Listened(run, which)|
    ensures D.Listened(run, which)[n - 3] == D.List(d, which).log[n].entry.fn
  {
    LogKnown(d, run, which);
    var heard := D.INTERNAL + D.Listened(run, which);
    assert forall i :: 0 <= i < 3 ==> D.IsInternal(heard[i]);
    D.HeardInOrder(d, which, D.FirstSettle(run).value.1, heard);
  }

  lemma {:induction false} TwicePresent(fns: seq<C.Fn>, i: nat, j: nat)
    requires i < j < |fns| && fns[i] == fns[j]
    ensures multiset(fns)[fns[i]] >= 2
  {
    assert fns == fns[..j] + fns[j..];
    assert fns[i] in fns[..j] && fns[j] in fns[j..];
  }

  /** A function given at most once is called at most once. */
  lemma {:induction false} CalledAtMostOnce(d: Deferred, run: seq<D.Event>, which: D.Which, n: nat, m: nat)
    requires IsDeferred(d, run) && which != D.Progress && n < |D.List(d, which).log| && m < |D.List(d, which).log|
    requires var fn := D.List(d, which).log[n].entry.fn;
             !D.IsInternal(fn) && D.List(d, which).log[m].entry.fn == fn && multiset(D.Listened(run, which))[fn] <= 1
    ensures n == m
  {
    hide IsDeferred;
    CalledGiven(d, run, which, n);
    CalledGiven(d, run, which, m);
    if n < m {
      TwicePresent(D.Listened(run, which), n - 3, m - 3);
    } else if m < n {
      TwicePresent(D.Listened(run, which), m - 3, n - 3);
    }
  }

  /** When the settled list is at rest, everything given to it has been called. */
  lemma {:induction false} AtRestCalled(d: Deferred, run: seq<D.Event>, which: D.Which, fn: C.Fn)
    requires IsDeferred(d, run) && which != D.Progress && fn in D.Listened(run, which)
    requires D.FirstSettle(run).Some? && D.FirstSettle(run).value.0 == which && !C.Running(D.List(d, which))
    ensures HasCalled(d, which, fn)
  {
    hide D.SettledBy, D.HearsAll, D.Hears, D.Listened, D.FirstSettle, D.Unsettled, C.Running;
    D.SettledByFirst(run);
    D.EveryListenerHeard(run);
    var x, given := D.FirstSettle(run).value.1, D.Listened(run, which);
    WinnerHears(d, which, x, D.INTERNAL + D.Listened(run, D.Done), D.INTERNAL + D.Listened(run, D.Fail));
    D.HeardInOrder(d, which, x, D.INTERNAL + given);
    var n :| 0 <= n < |given| && given[n] == fn;
    assert (D.INTERNAL + given)[n + 3] == fn;
    assert D.List(d, which).log[n + 3].entry.fn == fn;
  }

  lemma {:induction false} WinnerHears(d: Deferred, which: D.Which, x: Data, done: seq<C.Fn>, fail: seq<C.Fn>)
    requires D.HearsAll(d, done, fail) && D.SettledBy(d, which, x)
    ensures D.Hears(D.List(d, which), if which == D.Done then done else fail)
  {
    hide D.Hears;
  }

  // ----- The invariant -----

  /** For each kind of list, the positions below the bound have been given their function. */
  datatype Bounds = Bounds(done: nat, fail: nat, progress: nat)

  function Bound(b: Bounds, which: D.Which): nat {
    match which case Done => b.done case Fail => b.fail case Progress => b.progress
  }

  /** How often list `which` of subordinate `j` has been given the function of position `k`. */
  ghost predicate GivenAt(w: When, b: Bounds, which: D.Which, j: nat, k: nat)
    requires j < |w.runs| && k < |w.c.args|
  {
    multiset(D.Listened(w.runs[j], which))[OurFn(which, k)] ==
    if k < Bound(b, which) && w.c.args[k] == Promise(j) then 1 else 0
  }

  ghost predicate Given(w: When, b: Bounds) {
    forall which, j, k :: 0 <= j < |w.runs| && 0 <= k < |w.c.args| ==> GivenAt(w, b, which, j, k)
  }

  ghost predicate SubsOk(w: When) {
    forall j :: 0 <= j < |w.subs| && j < |w.runs| ==> IsDeferred(w.subs[j], w.runs[j])
  }

  /** The function of position `k` in a list of its subordinate has been called. */
  ghost predicate PosCalled(w: When, which: D.Which, k: nat)
    requires Sized(w) && k < |w.c.args|
  {
    w.c.args[k].Promise? && HasCalled(w.subs[w.c.args[k].sub], which, OurFn(which, k))
  }

  /** Position `k` has been accounted for. */
  ghost predicate Counted(w: When, k: nat)
    requires Sized(w) && k < |w.c.args|
  {
    if w.c.args[k].Plain? then k < w.c.i else PosCalled(w, D.Done, k)
  }

  ghost function Uncounted(w: When, n: nat): nat
    requires Sized(w) && n <= |w.c.args|
  {
    if n == 0 then 0 else Uncounted(w, n - 1) + if Counted(w, n - 1) then 0 else 1
  }

  /** How the deferred of position `k` was first settled. */
  ghost function SettledAt(w: When, k: nat): Option<(D.Which, Data)>
    requires Sized(w) && k < |w.c.args| && w.c.args[k].Promise?
  {
    D.FirstSettle(w.runs[w.c.args[k].sub])
  }

  ghost predicate ValueOk(w: When, k: nat)
    requires Sized(w) && k < |w.c.args|
  {
    if PosCalled(w, D.Done, k) then
      var first := SettledAt(w, k);
      first.Some? && w.c.values[k] == Collected(w.c.content(first.value.1))
    else w.c.values[k] == Original(w.c.args[k])
  }

  ghost predicate FailuresOk(w: When)
    requires Sized(w)
  {
    && (forall k: nat :: k in w.c.failures <==> k < |w.c.args| && PosCalled(w, D.Fail, k))
    && forall a, b :: 0 <= a < b < |w.c.failures| ==> w.c.failures[a] != w.c.failures[b]
  }

  ghost predicate MasterOk(w: When)
    requires Sized(w)
  {
    match D.FirstSettle(w.c.masterRun)
    case None => w.c.failures == [] && (w.c.looping || w.c.remaining > 0)
    case Some((which, data)) =>
      if which == D.Done then
        w.c.failures == [] && w.c.remaining == 0 && data < |w.c.store| && w.c.store[data] == w.c.values
      else
        && w.c.failures != [] && w.c.failures[0] < |w.c.args| && w.c.args[w.c.failures[0]].Promise?
        && SettledAt(w, w.c.failures[0]) == Some((D.Fail, data))
  }

  ghost predicate Inv(w: When, b: Bounds) {
    && Sized(w) && w.c.i <= |w.c.args| && (!w.c.looping ==> w.c.i == |w.c.args|)
    && SubsOk(w) && Given(w, b)
    && (forall k :: 0 <= k < |w.c.args| ==> ValueOk(w, k))
    && w.c.remaining == Uncounted(w, |w.c.args|)
    && FailuresOk(w)
    && IsDeferred(w.c.master, w.c.masterRun) && MasterOk(w)
  }

  lemma {:induction false} UncountedBounds(w: When, n: nat, k: nat)
    requires Sized(w) && n <= |w.c.args| && k < n && !Counted(w, k)
    ensures Uncounted(w, n) > 0
  {
    if k < n - 1 {
      UncountedBounds(w, n - 1, k);
    }
  }

  lemma {:induction false} AllCounted(w: When, n: nat)
    requires Sized(w) && n <= |w.c.args|
    ensures Uncounted(w, n) == 0 <==> forall k :: 0 <= k < n ==> Counted(w, k)
  {
    if n > 0 {
      AllCounted(w, n - 1);
    }
  }

  /** At most position `k` has become counted. */
  lemma {:induction false} UncountedStep(w: When, w': When, n: nat, k: nat)
    requires Sized(w) && Sized(w') && w'.c.args == w.c.args && n <= |w.c.args| && k < |w.c.args|
    requires forall m :: 0 <= m < n && m != k ==> (Counted(w', m) <==> Counted(w, m))
    ensures Uncounted(w', n) == Uncounted(w, n) - if k < n && !Counted(w, k) && Counted(w', k) then 1 else
                                                  if k < n && Counted(w, k) && !Counted(w', k) then -1 else 0
  {
    if n > 0 {
      UncountedStep(w, w', n - 1, k);
    }
  }

  lemma {:induction false} UncountedSame(w: When, w': When, n: nat)
    requires Sized(w) && Sized(w') && w'.c.args == w.c.args && n <= |w.c.args|
    requires forall m :: 0 <= m < n ==> (Counted(w', m) <==> Counted(w, m))
    ensures Uncounted(w', n) == Uncounted(w, n)
  {
    if n > 0 {
      UncountedSame(w, w', n - 1);
    }
  }

  /** A deferred is not both resolved and rejected. */
  lemma {:induction false} NotBoth(w: When, k: nat)
    requires Sized(w) && SubsOk(w) && k < |w.c.args|
    ensures !(PosCalled(w, D.Done, k) && PosCalled(w, D.Fail, k))
    ensures PosCalled(w, D.Done, k) ==> SettledAt(w, k).Some? && SettledAt(w, k).value.0 == D.Done
    ensures PosCalled(w, D.Fail, k) ==> SettledAt(w, k).Some? && SettledAt(w, k).value.0 == D.Fail
  {
    if w.c.args[k].Promise? {
      var j := w.c.args[k].sub;
      OurPosition(w.c.args, D.Done, k);
      if n :| 0 <= n < |w.subs[j].done.log| && w.subs[j].done.log[n].entry.fn == OurFn(D.Done, k) {
        LogKnown(w.subs[j], w.runs[j], D.Done);
      }
      if n :| 0 <= n < |w.subs[j].fail.log| && w.subs[j].fail.log[n].entry.fn == OurFn(D.Fail, k) {
        LogKnown(w.subs[j], w.runs[j], D.Fail);
      }
    }
  }

  /** A rejected position is never accounted for. */
  lemma {:induction false} FailedUncounted(w: When)
    requires Sized(w) && SubsOk(w) && FailuresOk(w) && w.c.failures != []
    ensures Uncounted(w, |w.c.args|) > 0
  {
    var k := w.c.failures[0];
    assert k in w.c.failures;
    NotBoth(w, k);
    UncountedBounds(w, |w.c.args|, k);
  }

  // ----- Something happens to a subordinate -----

  lemma {:induction false} DeferredStep(d: Deferred, run: seq<D.Event>, e: D.Event)
    requires IsDeferred(d, run) && D.Allowed(d, e)
    ensures IsDeferred(D.React(d, e), run + [e]) && D.Inv(d)
    ensures D.FirstSettle(run).Some? ==> D.FirstSettle(run + [e]) == D.FirstSettle(run)
  {
    hide D.React, D.Unsettled, D.SettledBy;
    D.RunSnoc(D.NewDeferred(), run, e);
    D.SettleSnoc(run, e);
    D.SettledByFirst(run);
  }

  /** Of the functions that are not internal, only the new call has been added to what was called. */
  lemma {:induction false} CallEffect(d: Deferred, e: D.Event, which: D.Which, fn: C.Fn)
    requires D.Inv(d) && D.Allowed(d, e) && !D.IsInternal(fn)
    ensures var call := NewCall(D.List(d, e.which), D.List(D.React(d, e), e.which));
            HasCalled(D.React(d, e), which, fn) <==>
            HasCalled(d, which, fn) || (which == e.which && call.Some? && call.value.entry.fn == fn)
  {
    hide D.React, D.Inv;
    D.ReactCalls(d, e);
    var before, after := D.List(d, which).log, D.List(D.React(d, e), which).log;
    if n :| 0 <= n < |before| && before[n].entry.fn == fn {
      assert after[n] == before[n];
    }
    if which == e.which && |after| > |before| && after[|after| - 1].entry.fn == fn {
      assert HasCalled(D.React(d, e), which, fn);
    }
    if n :| 0 <= n < |after| && after[n].entry.fn == fn {
      assert n < |before| ==> before[n] == after[n];
    }
  }

  ghost function CallOf(w: When, j: nat, e: D.Event): Option<C.Call>
    requires j < |w.subs| && D.Allowed(w.subs[j], e)
  {
    NewCall(D.List(w.subs[j], e.which), D.List(D.React(w.subs[j], e), e.which))
  }

  /** The event makes a list call the function of position `k`. */
  ghost predicate CallsPosition(w: When, j: nat, e: D.Event, k: nat)
    requires j < |w.subs| && D.Allowed(w.subs[j], e)
  {
    var call := CallOf(w, j, e);
    call.Some? && IsOurs(w.c.args, e.which, call.value.entry.fn) && PositionOf(call.value.entry.fn) == k
  }

  lemma {:induction false} SubsStep(w: When, j: nat, e: D.Event)
    requires Sized(w) && SubsOk(w) && j < |w.subs| && D.Allowed(w.subs[j], e)
    ensures Sized(Delivered(w, j, e)) && SubsOk(Delivered(w, j, e)) && Delivered(w, j, e).c.args == w.c.args
    ensures forall k :: 0 <= k < |w.c.args| && w.c.args[k].Promise? && SettledAt(w, k).Some? ==>
              SettledAt(Delivered(w, j, e), k) == SettledAt(w, k)
  {
    hide D.React, Deliver, IsDeferred, D.FirstSettle;
    DeliveredSized(w, j, e);
    DeferredStep(w.subs[j], w.runs[j], e);
    assert Delivered(w, j, e).subs == w.subs[j := D.React(w.subs[j], e)] by { DeliveredSub(w, j, e); }
  }

  lemma {:induction false} DeliveredSub(w: When, j: nat, e: D.Event)
    requires Sized(w) && j < |w.subs| && D.Allowed(w.subs[j], e)
    ensures Delivered(w, j, e).subs == w.subs[j := D.React(w.subs[j], e)]
    ensures Delivered(w, j, e).c == Heed(w.c, e.which, CallOf(w, j, e))
  {
  }

  lemma {:induction false} PosCalledStep(w: When, j: nat, e: D.Event, which: D.Which, k: nat)
    requires Sized(w) && SubsOk(w) && j < |w.subs| && D.Allowed(w.subs[j], e) && k < |w.c.args|
    requires Sized(Delivered(w, j, e)) && Delivered(w, j, e).c.args == w.c.args
    ensures PosCalled(Delivered(w, j, e), which, k) <==>
            PosCalled(w, which, k) || (which == e.which && w.c.args[k] == Promise(j) && CallsPosition(w, j, e, k))
  {
    hide D.React, Delivered, HasCalled, D.Inv, D.FirstSettle;
    DeliveredSub(w, j, e);
    DeferredStep(w.subs[j], w.runs[j], e);
    OurPosition(w.c.args, which, k);
    CallEffect(w.subs[j], e, which, OurFn(which, k));
  }

  /** A call of one of our functions comes from the subordinate of its position, and is the first. */
  lemma {:induction false} FreshCall(w: When, j: nat, e: D.Event, b: Bounds, k: nat)
    requires Sized(w) && SubsOk(w) && j < |w.subs| && D.Allowed(w.subs[j], e) && k < |w.c.args|
    requires Sized(Delivered(w, j, e)) && Delivered(w, j, e).c.args == w.c.args && Given(Delivered(w, j, e), b)
    requires e.which != D.Progress && CallsPosition(w, j, e, k)
    ensures w.c.args[k] == Promise(j) && !PosCalled(w, e.which, k)
    ensures D.FirstSettle(w.runs[j] + [e]) == Some((e.which, CallOf(w, j, e).value.data))
  {
    hide D.React, Deliver, D.FirstSettle, D.Inv, D.Listened;
    var d, run := w.subs[j], w.runs[j] + [e];
    var d' := D.React(d, e);
    DeferredStep(d, w.runs[j], e);
    OurPosition(w.c.args, e.which, k);
    var log, fn := D.List(d', e.which).log, OurFn(e.which, k);
    CalledGiven(d', run, e.which, |log| - 1);
    assert GivenAt(Delivered(w, j, e), b, e.which, j, k);
    assert multiset(D.Listened(run, e.which))[fn] >= 1 by {
      assert fn in D.Listened(run, e.which);
    }
    if PosCalled(w, e.which, k) {
      D.ReactCalls(d, e);
      var n :| 0 <= n < |D.List(d, e.which).log| && D.List(d, e.which).log[n].entry.fn == fn;
      assert log[n] == D.List(d, e.which).log[n];
      CalledAtMostOnce(d', run, e.which, n, |log| - 1);
    }
  }

  /** Whatever else happened, what was called for the other positions is as before. */
  ghost predicate OnlyPosition(w: When, w': When, which: D.Which, k: nat) {
    && Sized(w) && Sized(w') && w'.c.args == w.c.args && w'.c.i == w.c.i && w'.c.content == w.c.content
    && (forall v, m: nat :: m < |w.c.args| && (v != which || m != k) ==> (PosCalled(w', v, m) <==> PosCalled(w, v, m)))
    && (forall m :: 0 <= m < |w.c.args| && w.c.args[m].Promise? && SettledAt(w, m).Some? ==>
          SettledAt(w', m) == SettledAt(w, m))
  }

  lemma {:induction false} StepTouches(w: When, j: nat, e: D.Event, k: nat)
    requires Sized(w) && SubsOk(w) && j < |w.subs| && D.Allowed(w.subs[j], e)
    requires forall m :: CallsPosition(w, j, e, m) ==> m == k
    ensures OnlyPosition(w, Delivered(w, j, e), e.which, k) && SubsOk(Delivered(w, j, e))
  {
    hide Delivered, PosCalled, CallsPosition, SettledAt;
    SubsStep(w, j, e);
    DeliveredSized(w, j, e);
    var w' := Delivered(w, j, e);
    forall v, m: nat | m < |w.c.args| && (v != e.which || m != k) ensures PosCalled(w', v, m) <==> PosCalled(w, v, m) {
      PosCalledStep(w, j, e, v, m);
    }
  }

  lemma {:induction false} CountsElsewhere(w: When, w': When, which: D.Which, k: nat, m: nat)
    requires OnlyPosition(w, w', which, k) && m < |w.c.args| && (which != D.Done || m != k)
    ensures Counted(w', m) <==> Counted(w, m)
  {
    hide PosCalled, SettledAt;
  }

  lemma {:induction false} ValueElsewhere(w: When, w': When, which: D.Which, k: nat, m: nat)
    requires OnlyPosition(w, w', which, k) && SubsOk(w) && m < |w.c.args| && (which != D.Done || m != k)
    requires ValueOk(w, m) && w'.c.values[m] == w.c.values[m]
    ensures ValueOk(w', m)
  {
    hide HasCalled, SettledAt, Collected;
    NotBoth(w, m);
  }

  lemma {:induction false} FailuresElsewhere(w: When, w': When, which: D.Which, k: nat)
    requires OnlyPosition(w, w', which, k) && which != D.Fail && FailuresOk(w) && w'.c.failures == w.c.failures
    ensures FailuresOk(w')
  {
    hide PosCalled, SettledAt;
  }

  /** The master's fate, told by what was settled where, outlives later events. */
  lemma {:induction false} MasterElsewhere(w: When, w': When, which: D.Which, k: nat)
    requires OnlyPosition(w, w', which, k) && MasterOk(w)
    requires w'.c.failures == w.c.failures && w'.c.looping == w.c.looping && w'.c.remaining == w.c.remaining
    requires w'.c.values == w.c.values && w.c.store <= w'.c.store
    requires D.FirstSettle(w'.c.masterRun) == D.FirstSettle(w.c.masterRun)
    ensures MasterOk(w')
  {
    hide PosCalled, D.FirstSettle;
  }

  /** Everything but the master: nothing was counted. */
  lemma {:induction false} QuietStep(w: When, w': When, which: D.Which, k: nat)
    requires OnlyPosition(w, w', which, k) && which != D.Done && SubsOk(w)
    requires forall m :: 0 <= m < |w.c.args| ==> ValueOk(w, m)
    requires w'.c.values == w.c.values && w'.c.remaining == w.c.remaining && w.c.remaining == Uncounted(w, |w.c.args|)
    ensures forall m :: 0 <= m < |w.c.args| ==> ValueOk(w', m)
    ensures w'.c.remaining == Uncounted(w', |w.c.args|)
  {
    hide OnlyPosition, ValueOk, Counted;
    assert Sized(w) && Sized(w') && w'.c.args == w.c.args by { OnlyShape(w, w', which, k); }
    forall m | 0 <= m < |w.c.args| ensures ValueOk(w', m) && (Counted(w', m) <==> Counted(w, m)) {
      ValueElsewhere(w, w', which, k, m);
      CountsElsewhere(w, w', which, k, m);
    }
    UncountedSame(w, w', |w.c.args|);
  }

  lemma {:induction false} OnlyShape(w: When, w': When, which: D.Which, k: nat)
    requires OnlyPosition(w, w', which, k)
    ensures Sized(w) && Sized(w') && w'.c.args == w.c.args && w'.c.i == w.c.i && w'.c.content == w.c.content
  {
  }

  lemma {:induction false} MasterAsked(c: Closure, e: D.Event)
    requires IsDeferred(c.master, c.masterRun) && D.Allowed(c.master, e)
    ensures IsDeferred(Ask(c, e).master, Ask(c, e).masterRun)
    ensures D.FirstSettle(Ask(c, e).masterRun) ==
            if D.FirstSettle(c.masterRun).Some? then D.FirstSettle(c.masterRun)
            else if e.Fire? && e.which != D.Progress then Some((e.which, e.data)) else None
  {
    hide D.React;
    D.RunSnoc(D.NewDeferred(), c.masterRun, e);
    D.SettleSnoc(c.masterRun, e);
    assert [e][1..] == [];
  }

  lemma {:induction false} OnlyNone(w: When, w': When, which: D.Which, v: D.Which, k: nat)
    requires OnlyPosition(w, w', which, |w.c.args|)
    ensures OnlyPosition(w, w', v, k)
  {
    hide PosCalled, SettledAt;
  }

  /** The parts of the invariant that neither count nor settle. */
  ghost predicate Framed(w: When, b: Bounds) {
    && Sized(w) && w.c.i <= |w.c.args| && (!w.c.looping ==> w.c.i == |w.c.args|)
    && SubsOk(w) && Given(w, b)
  }

  ghost predicate Accounts(w: When)
    requires Sized(w)
  {
    && (forall k :: 0 <= k < |w.c.args| ==> ValueOk(w, k))
    && w.c.remaining == Uncounted(w, |w.c.args|)
  }

  ghost predicate MasterFollows(w: When)
    requires Sized(w)
  {
    FailuresOk(w) && IsDeferred(w.c.master, w.c.masterRun) && MasterOk(w)
  }

  lemma {:induction false} InvParts(w: When, b: Bounds)
    ensures Inv(w, b) <==> Framed(w, b) && Accounts(w) && MasterFollows(w)
  {
    hide SubsOk, Given, ValueOk, Uncounted, FailuresOk, IsDeferred, MasterOk;
  }

  lemma {:induction false} FramedStep(w: When, j: nat, e: D.Event, b: Bounds, b': Bounds, k: nat)
    requires Framed(w, b) && j < |w.subs| && D.Allowed(w.subs[j], e) && Given(Delivered(w, j, e), b')
    requires forall m :: CallsPosition(w, j, e, m) ==> m == k
    ensures Framed(Delivered(w, j, e), b') && OnlyPosition(w, Delivered(w, j, e), e.which, k)
  {
    hide Delivered, OnlyPosition, Given, SubsOk, CallsPosition;
    DeliveredSized(w, j, e);
    StepTouches(w, j, e, k);
  }

  /** None of our functions was called. */
  lemma {:induction false} DeliverNotOurs(w: When, j: nat, e: D.Event, b: Bounds, b': Bounds)
    requires Inv(w, b) && j < |w.subs| && D.Allowed(w.subs[j], e) && Given(Delivered(w, j, e), b')
    requires forall k :: !CallsPosition(w, j, e, k)
    ensures Inv(Delivered(w, j, e), b')
  {
    hide Inv, SubsOk, Delivered, OnlyPosition, ValueOk, Uncounted, FailuresOk, MasterOk, IsDeferred, Given, CallOf,
         D.FirstSettle;
    InvParts(w, b);
    var w', n := Delivered(w, j, e), |w.c.args|;
    FramedStep(w, j, e, b, b', n);
    NoHeed(w, j, e);
    DeliveredSub(w, j, e);
    OnlyShape(w, w', e.which, n);
    OnlyNone(w, w', e.which, D.Progress, n);
    FramedSubs(w, b);
    QuietStep(w, w', D.Progress, n);
    FailuresElsewhere(w, w', D.Progress, n);
    MasterElsewhere(w, w', D.Progress, n);
    InvParts(w', b');
  }

  lemma {:induction false} FramedSubs(w: When, b: Bounds)
    requires Framed(w, b)
    ensures SubsOk(w)
  {
  }

  lemma {:induction false} NoHeed(w: When, j: nat, e: D.Event)
    requires Sized(w) && j < |w.subs| && D.Allowed(w.subs[j], e) && forall k :: !CallsPosition(w, j, e, k)
    ensures Heed(w.c, e.which, CallOf(w, j, e)) == w.c
  {
    hide D.React, CallOf;
    var call := CallOf(w, j, e);
    assert !CallsPosition(w, j, e, if call.Some? then PositionOf(call.value.entry.fn) else 0);
  }

  lemma {:induction false} OneHeed(w: When, j: nat, e: D.Event, k: nat)
    requires Sized(w) && j < |w.subs| && D.Allowed(w.subs[j], e) && CallsPosition(w, j, e, k)
    ensures k < |w.c.args| && CallOf(w, j, e).Some?
    ensures Heed(w.c, e.which, CallOf(w, j, e)) == Called(w.c, e.which, k, CallOf(w, j, e).value.data)
    ensures forall m :: CallsPosition(w, j, e, m) ==> m == k
  {
    hide D.React, CallOf, Called;
  }

  /** A progress function was called. */
  lemma {:induction false} DeliverProgress(w: When, j: nat, e: D.Event, b: Bounds, b': Bounds, k: nat)
    requires Inv(w, b) && j < |w.subs| && D.Allowed(w.subs[j], e) && Given(Delivered(w, j, e), b')
    requires e.which == D.Progress && CallsPosition(w, j, e, k)
    ensures Inv(Delivered(w, j, e), b')
  {
    hide Inv, SubsOk, Delivered, OnlyPosition, ValueOk, Uncounted, FailuresOk, MasterOk, IsDeferred, Given, CallOf,
         D.FirstSettle, CallsPosition, Ask, Collected;
    InvParts(w, b);
    var w' := Delivered(w, j, e);
    OneHeed(w, j, e, k);
    FramedStep(w, j, e, b, b', k);
    DeliveredSub(w, j, e);
    OnlyShape(w, w', D.Progress, k);
    FramedSubs(w, b);
    var c := w.c.(progress := w.c.progress[k := Collected(w.c.content(CallOf(w, j, e).value.data))]);
    var c1 := c.(store := c.store + [c.progress]);
    MasterAsked(c1, D.Fire(D.Progress, |c.store|));
    AskKeeps(c1, D.Fire(D.Progress, |c.store|));
    QuietStep(w, w', D.Progress, k);
    FailuresElsewhere(w, w', D.Progress, k);
    MasterElsewhere(w, w', D.Progress, k);
    InvParts(w', b');
  }

  lemma {:induction false} AskKeeps(c: Closure, e: D.Event)
    requires D.Allowed(c.master, e)
    ensures Ask(c, e) == c.(master := Ask(c, e).master, masterRun := Ask(c, e).masterRun)
  {
  }

  /** The update function of position `k` was called: one position less to wait for. */
  lemma {:induction false} DoneAccounts(w: When, j: nat, e: D.Event, k: nat)
    requires Sized(w) && SubsOk(w) && Accounts(w) && j < |w.subs| && D.Allowed(w.subs[j], e) && e.which == D.Done
    requires OnlyPosition(w, Delivered(w, j, e), D.Done, k) && CallsPosition(w, j, e, k)
    requires k < |w.c.args| && w.c.args[k] == Promise(j) && !PosCalled(w, D.Done, k)
    requires D.FirstSettle(w.runs[j] + [e]) == Some((D.Done, CallOf(w, j, e).value.data))
    requires Delivered(w, j, e).c.values == w.c.values[k := Collected(w.c.content(CallOf(w, j, e).value.data))]
    requires Delivered(w, j, e).c.remaining == w.c.remaining - 1
    ensures Accounts(Delivered(w, j, e))
  {
    hide OnlyPosition, Uncounted, CallOf, D.FirstSettle, CallsPosition, Collected, HasCalled, ValueOk,
         Delivered, Counted;
    var w' := Delivered(w, j, e);
    OnlyShape(w, w', D.Done, k);
    PosCalledStep(w, j, e, D.Done, k);
    forall m | 0 <= m < |w.c.args| && m != k ensures ValueOk(w', m) && (Counted(w', m) <==> Counted(w, m)) {
      ValueElsewhere(w, w', D.Done, k, m);
      CountsElsewhere(w, w', D.Done, k, m);
    }
    UncountedStep(w, w', |w.c.args|, k);
    NowCounted(w, j, e, k);
  }

  lemma {:induction false} NowCounted(w: When, j: nat, e: D.Event, k: nat)
    requires Sized(w) && j < |w.subs| && D.Allowed(w.subs[j], e) && k < |w.c.args| && w.c.args[k] == Promise(j)
    requires Sized(Delivered(w, j, e)) && Delivered(w, j, e).c.args == w.c.args
    requires Delivered(w, j, e).c.content == w.c.content
    requires !PosCalled(w, D.Done, k) && PosCalled(Delivered(w, j, e), D.Done, k)
    requires D.FirstSettle(w.runs[j] + [e]).Some?
    requires Delivered(w, j, e).c.values[k] == Collected(w.c.content(D.FirstSettle(w.runs[j] + [e]).value.1))
    ensures !Counted(w, k) && Counted(Delivered(w, j, e), k) && ValueOk(Delivered(w, j, e), k)
  {
    hide D.FirstSettle, Collected, HasCalled, Deliver;
  }

  lemma {:induction false} DeliverDone(w: When, j: nat, e: D.Event, b: Bounds, b': Bounds, k: nat)
    requires Inv(w, b) && j < |w.subs| && D.Allowed(w.subs[j], e) && Given(Delivered(w, j, e), b')
    requires e.which == D.Done && CallsPosition(w, j, e, k)
    ensures Inv(Delivered(w, j, e), b')
  {
    hide Inv, SubsOk, Delivered, OnlyPosition, ValueOk, Uncounted, FailuresOk, MasterOk, IsDeferred, Given, CallOf,
         D.FirstSettle, CallsPosition, Ask, Collected, PosCalled;
    InvParts(w, b);
    var w' := Delivered(w, j, e);
    OneHeed(w, j, e, k);
    FramedStep(w, j, e, b, b', k);
    DeliveredSub(w, j, e);
    OnlyShape(w, w', D.Done, k);
    FreshCall(w, j, e, b', k);
    var values := w.c.values[k := Collected(w.c.content(CallOf(w, j, e).value.data))];
    var c := w.c.(values := values, remaining := w.c.remaining - 1);
    AskKeeps(c.(store := c.store + [values]), D.Fire(D.Done, |c.store|));
    DoneAccounts(w, j, e, k);
    FailuresElsewhere(w, w', D.Done, k);
    MasterAsked(c.(store := c.store + [values]), D.Fire(D.Done, |c.store|));
    DoneMaster(w, w', k, c);
    InvParts(w', b');
  }

  /** Nothing left to wait for resolves the master; otherwise it is left alone. */
  lemma {:induction false} DoneMaster(w: When, w': When, k: nat, c: Closure)
    requires OnlyPosition(w, w', D.Done, k) && MasterOk(w) && SubsOk(w') && FailuresOk(w')
    requires c == w.c.(values := c.values, remaining := w.c.remaining - 1) && c.remaining == Uncounted(w', |w'.c.args|)
    requires w'.c == if c.remaining == 0 then FireMaster(c, D.Done, c.values) else c
    requires c.remaining == 0 ==>
               D.FirstSettle(w'.c.masterRun) ==
               if D.FirstSettle(c.masterRun).Some? then D.FirstSettle(c.masterRun) else Some((D.Done, |c.store|))
    ensures MasterOk(w')
  {
    hide SubsOk, FailuresOk, Uncounted, D.FirstSettle, PosCalled, D.React;
    if w'.c.failures != [] {
      FailedUncounted(w');
    }
  }

  lemma {:induction false} DeliverFail(w: When, j: nat, e: D.Event, b: Bounds, b': Bounds, k: nat)
    requires Inv(w, b) && j < |w.subs| && D.Allowed(w.subs[j], e) && Given(Delivered(w, j, e), b')
    requires e.which == D.Fail && CallsPosition(w, j, e, k)
    ensures Inv(Delivered(w, j, e), b')
  {
    hide Inv, SubsOk, Delivered, OnlyPosition, ValueOk, Uncounted, FailuresOk, MasterOk, IsDeferred, Given, CallOf,
         D.FirstSettle, CallsPosition, Ask, Collected, PosCalled;
    InvParts(w, b);
    var w' := Delivered(w, j, e);
    OneHeed(w, j, e, k);
    FramedStep(w, j, e, b, b', k);
    DeliveredSub(w, j, e);
    OnlyShape(w, w', D.Fail, k);
    FreshCall(w, j, e, b', k);
    var data := CallOf(w, j, e).value.data;
    var c := w.c.(failures := w.c.failures + [k]);
    AskKeeps(c, D.Fire(D.Fail, data));
    MasterAsked(c, D.Fire(D.Fail, data));
    QuietStep(w, w', D.Fail, k);
    PosCalledStep(w, j, e, D.Fail, k);
    FailureAdded(w, w', k);
    assert SettledAt(w', k) == Some((D.Fail, data)) by { DeliveredRun(w, j, e); }
    FailMaster(w, w', k, data);
    InvParts(w', b');
  }

  lemma {:induction false} DeliveredRun(w: When, j: nat, e: D.Event)
    requires Sized(w) && j < |w.subs| && D.Allowed(w.subs[j], e)
    ensures Delivered(w, j, e).runs == w.runs[j := w.runs[j] + [e]]
  {
  }

  lemma {:induction false} FailureAdded(w: When, w': When, k: nat)
    requires OnlyPosition(w, w', D.Fail, k) && k < |w.c.args| && FailuresOk(w) && w'.c.failures == w.c.failures + [k]
    requires !PosCalled(w, D.Fail, k) && PosCalled(w', D.Fail, k)
    ensures FailuresOk(w')
  {
    hide PosCalled, SettledAt;
    forall m: nat ensures m in w'.c.failures <==> m < |w'.c.args| && PosCalled(w', D.Fail, m) {
      assert m in w'.c.failures <==> m in w.c.failures || m == k;
    }
    forall a, b | 0 <= a < b < |w'.c.failures| ensures w'.c.failures[a] != w'.c.failures[b] {
      assert a < |w.c.failures| ==> w.c.failures[a] in w.c.failures;
    }
  }

  /** The first rejection rejects the master; later ones find it settled. */
  lemma {:induction false} FailMaster(w: When, w': When, k: nat, data: Data)
    requires OnlyPosition(w, w', D.Fail, k) && MasterOk(w) && SubsOk(w') && k < |w.c.args| && PosCalled(w', D.Fail, k)
    requires w.c.remaining == Uncounted(w, |w.c.args|)
    requires w'.c.failures == w.c.failures + [k] && SettledAt(w', k) == Some((D.Fail, data))
    requires D.FirstSettle(w'.c.masterRun) ==
             if D.FirstSettle(w.c.masterRun).Some? then D.FirstSettle(w.c.masterRun) else Some((D.Fail, data))
    ensures MasterOk(w')
  {
    hide SubsOk, Uncounted, D.FirstSettle, HasCalled;
    NotBoth(w', k);
    AllCounted(w, |w.c.args|);
    CountsElsewhere(w, w', D.Fail, k, k);
  }

  lemma {:induction false} DeliverInv(w: When, j: nat, e: D.Event, b: Bounds, b': Bounds)
    requires Inv(w, b) && j < |w.subs| && D.Allowed(w.subs[j], e) && Given(Delivered(w, j, e), b')
    ensures Inv(Delivered(w, j, e), b')
  {
    hide Inv, Delivered, Given, CallsPosition;
    assert Sized(w) by { InvParts(w, b); }
    if k :| CallsPosition(w, j, e, k) {
      match e.which
      case Done => DeliverDone(w, j, e, b, b', k);
      case Fail => DeliverFail(w, j, e, b, b', k);
      case Progress => DeliverProgress(w, j, e, b, b', k);
    } else {
      DeliverNotOurs(w, j, e, b, b');
    }
  }

  // ----- Every step keeps the invariant -----

  ghost predicate AllFrom(fns: seq<C.Fn>, least: nat) {
    forall i :: 0 <= i < |fns| ==> fns[i] >= least
  }

  lemma {:induction false} ForeignListened(args: seq<Arg>, run: seq<D.Event>, which: D.Which)
    requires forall i :: 0 <= i < |run| ==> Foreign(args, run[i])
    ensures AllFrom(D.Listened(run, which), Others(args))
    decreases |run|
  {
    if run != [] {
      assert Foreign(args, run[0]);
      forall i | 0 <= i < |run[1..]| ensures Foreign(args, run[1..][i]) {
        assert run[1..][i] == run[i + 1];
      }
      ForeignListened(args, run[1..], which);
    }
  }

  lemma {:induction false} NotGiven(args: seq<Arg>, fns: seq<C.Fn>, which: D.Which, k: nat)
    requires AllFrom(fns, Others(args)) && k < |args|
    ensures multiset(fns)[OurFn(which, k)] == 0
  {
    OurPosition(args, which, k);
    assert OurFn(which, k) !in fns;
  }

  /** What an event gives to the lists of its subordinate is added to what they were given. */
  lemma {:induction false} GivenMore(w: When, j: nat, e: D.Event, which: D.Which)
    requires Sized(w) && j < |w.subs| && D.Allowed(w.subs[j], e)
    ensures Delivered(w, j, e).runs == w.runs[j := w.runs[j] + [e]]
    ensures multiset(D.Listened(w.runs[j] + [e], which)) ==
            multiset(D.Listened(w.runs[j], which)) + multiset(D.Listened([e], which))
  {
    hide D.Listened, D.FirstSettle;
    DeliveredRun(w, j, e);
    D.ListenedSnoc(w.runs[j], e, which);
  }

  lemma {:induction false} GivenForeign(w: When, j: nat, e: D.Event, b: Bounds)
    requires Sized(w) && j < |w.subs| && D.Allowed(w.subs[j], e) && Foreign(w.c.args, e) && Given(w, b)
    ensures Given(Delivered(w, j, e), b)
  {
    hide Delivered, D.Listened;
    DeliveredSized(w, j, e);
    var w' := Delivered(w, j, e);
    forall which, j', k | 0 <= j' < |w'.runs| && 0 <= k < |w'.c.args| ensures GivenAt(w', b, which, j', k) {
      GivenMore(w, j, e, which);
      ForeignListened(w.c.args, [e], which);
      NotGiven(w.c.args, D.Listened([e], which), which, k);
      assert GivenAt(w, b, which, j', k);
    }
  }

  function Raised(b: Bounds, which: D.Which, n: nat): Bounds {
    match which case Done => b.(done := n) case Fail => b.(fail := n) case Progress => b.(progress := n)
  }

  lemma {:induction false} GivenOurs(w: When, which: D.Which, k: nat, b: Bounds)
    requires Sized(w) && k < |w.c.args| && w.c.args[k].Promise? && Given(w, b) && Bound(b, which) == k
    ensures D.Allowed(w.subs[w.c.args[k].sub], Listening(which, k))
    ensures Given(Delivered(w, w.c.args[k].sub, Listening(which, k)), Raised(b, which, k + 1))
  {
    hide Delivered, D.Listened;
    var j, e := w.c.args[k].sub, Listening(which, k);
    OurPosition(w.c.args, which, k);
    DeliveredSized(w, j, e);
    var w', b' := Delivered(w, j, e), Raised(b, which, k + 1);
    forall v, j', m | 0 <= j' < |w'.runs| && 0 <= m < |w'.c.args| ensures GivenAt(w', b', v, j', m) {
      GivenMore(w, j, e, v);
      GivenOnce(which, k, v, m);
      assert GivenAt(w, b, v, j', m);
    }
  }

  lemma {:induction false} GivenOnce(which: D.Which, k: nat, v: D.Which, m: nat)
    ensures multiset(D.Listened([Listening(which, k)], v))[OurFn(v, m)] == if v == which && m == k then 1 else 0
  {
    D.OneListened(Listening(which, k), v);
  }

  function Even(n: nat): Bounds {
    Bounds(n, n, n)
  }

  lemma {:induction false} AttachedInv(w: When)
    requires Inv(w, Even(w.c.i)) && w.c.i < |w.c.args| && w.c.args[w.c.i].Promise?
    ensures Inv(Attached(w, w.c.i), Even(w.c.i + 1))
    ensures var w' := Attached(w, w.c.i); w'.c.args == w.c.args && w'.c.i == w.c.i && w'.c.looping == w.c.looping
  {
    hide Inv, Given, Delivered;
    var k, j := w.c.i, w.c.args[w.c.i].sub;
    InvParts(w, Even(k));
    GivenOurs(w, D.Done, k, Even(k));
    DeliverInv(w, j, Listening(D.Done, k), Even(k), Bounds(k + 1, k, k));
    DeliveredSized(w, j, Listening(D.Done, k));
    var w1 := Delivered(w, j, Listening(D.Done, k));
    InvParts(w1, Bounds(k + 1, k, k));
    GivenOurs(w1, D.Fail, k, Bounds(k + 1, k, k));
    DeliverInv(w1, j, Listening(D.Fail, k), Bounds(k + 1, k, k), Bounds(k + 1, k + 1, k));
    DeliveredSized(w1, j, Listening(D.Fail, k));
    var w2 := Delivered(w1, j, Listening(D.Fail, k));
    InvParts(w2, Bounds(k + 1, k + 1, k));
    GivenOurs(w2, D.Progress, k, Bounds(k + 1, k + 1, k));
    DeliverInv(w2, j, Listening(D.Progress, k), Bounds(k + 1, k + 1, k), Even(k + 1));
    DeliveredSized(w2, j, Listening(D.Progress, k));
  }

  /** Only the closure changed, and not in what the subordinates know of. */
  ghost predicate SameSubs(w: When, w': When) {
    && w'.subs == w.subs && w'.runs == w.runs && w'.c.args == w.c.args && w'.c.content == w.c.content
    && w'.c.failures == w.c.failures && w'.c.values == w.c.values && |w'.c.progress| == |w.c.progress|
  }

  lemma {:induction false} SameSubsKeeps(w: When, w': When, b: Bounds)
    requires SameSubs(w, w') && Sized(w)
    ensures Sized(w') && (SubsOk(w) ==> SubsOk(w')) && (Given(w, b) ==> Given(w', b))
    ensures FailuresOk(w) ==> FailuresOk(w')
    ensures forall k :: 0 <= k < |w.c.args| && ValueOk(w, k) ==> ValueOk(w', k)
    ensures forall which, k: nat :: k < |w.c.args| ==> (PosCalled(w', which, k) <==> PosCalled(w, which, k))
    ensures forall k :: 0 <= k < |w.c.args| && w.c.args[k].Promise? ==> SettledAt(w', k) == SettledAt(w, k)
  {
    hide HasCalled, IsDeferred, Collected, D.FirstSettle, D.Listened;
    if Given(w, b) {
      forall which, j, k | 0 <= j < |w'.runs| && 0 <= k < |w'.c.args| ensures GivenAt(w', b, which, j, k) {
        assert GivenAt(w, b, which, j, k);
      }
    }
    if FailuresOk(w) {
      forall k: nat ensures k in w'.c.failures <==> k < |w'.c.args| && PosCalled(w', D.Fail, k) {
        assert k < |w.c.args| ==> (PosCalled(w', D.Fail, k) <==> PosCalled(w, D.Fail, k));
      }
    }
  }

  /** The loop goes past a position whose functions have been given out. */
  lemma {:induction false} PassedInv(w: When, i: nat, b: Bounds)
    requires Inv(w, b) && w.c.i == i < |w.c.args| && w.c.args[i].Promise? && w.c.looping
    ensures Inv(w.(c := w.c.(i := i + 1)), b)
  {
    hide Inv, SubsOk, Given, ValueOk, Uncounted, FailuresOk, IsDeferred, MasterOk, PosCalled, SettledAt, D.FirstSettle;
    InvParts(w, b);
    var w' := w.(c := w.c.(i := i + 1));
    SameSubsKeeps(w, w', b);
    UncountedSame(w, w', |w.c.args|);
    MasterSame(w, w');
    InvParts(w', b);
  }

  lemma {:induction false} MasterSame(w: When, w': When)
    requires Sized(w) && Sized(w') && MasterOk(w) && SameSubs(w, w')
    requires w'.c.looping == w.c.looping && w'.c.store == w.c.store && w'.c.masterRun == w.c.masterRun
    requires w'.c.remaining == w.c.remaining
    ensures MasterOk(w')
  {
    hide D.FirstSettle;
  }

  lemma {:induction false} PlainInv(w: When)
    requires Inv(w, Even(w.c.i)) && w.c.i < |w.c.args| && w.c.args[w.c.i].Plain? && w.c.looping
    ensures Inv(w.(c := w.c.(remaining := w.c.remaining - 1, i := w.c.i + 1)), Even(w.c.i + 1))
  {
    hide Inv, SubsOk, Given, ValueOk, Uncounted, FailuresOk, IsDeferred, MasterOk, PosCalled, SettledAt, D.FirstSettle;
    var k, n := w.c.i, |w.c.args|;
    InvParts(w, Even(k));
    var w' := w.(c := w.c.(remaining := w.c.remaining - 1, i := k + 1));
    SameSubsKeeps(w, w', Even(k));
    GivenPlain(w', k);
    UncountedBounds(w, n, k);
    UncountedStep(w, w', n, k);
    PlainMaster(w, w');
    InvParts(w', Even(k + 1));
  }

  lemma {:induction false} GivenPlain(w: When, k: nat)
    requires Sized(w) && k < |w.c.args| && w.c.args[k].Plain? && Given(w, Even(k))
    ensures Given(w, Even(k + 1))
  {
    hide D.Listened;
    var b, b' := Even(k), Even(k + 1);
    forall which, j, m | 0 <= j < |w.runs| && 0 <= m < |w.c.args| ensures GivenAt(w, b', which, j, m) {
      assert GivenAt(w, b, which, j, m);
    }
  }

  lemma {:induction false} PlainMaster(w: When, w': When)
    requires Sized(w) && Sized(w') && MasterOk(w) && SameSubs(w, w') && w.c.remaining > 0
    requires w.c.looping && w'.c.looping && w'.c.masterRun == w.c.masterRun && w'.c.store == w.c.store
    ensures MasterOk(w')
  {
    hide D.FirstSettle;
  }

  lemma {:induction false} EndLoopInv(w: When, b: Bounds)
    requires Inv(w, b) && w.c.looping && w.c.i == |w.c.args|
    ensures Inv(w.(c := LoopEnded(w.c)), b)
  {
    hide Inv, SubsOk, Given, ValueOk, Uncounted, FailuresOk, IsDeferred, MasterOk, PosCalled, SettledAt,
         D.FirstSettle, Ask;
    InvParts(w, b);
    var w' := w.(c := LoopEnded(w.c));
    var c := w.c.(looping := false, store := w.c.store + [w.c.values]);
    MasterAsked(c, D.Fire(D.Done, |w.c.store|));
    AskKeeps(c, D.Fire(D.Done, |w.c.store|));
    SameSubsKeeps(w, w', b);
    UncountedSame(w, w', |w.c.args|);
    if w.c.failures != [] {
      FailedUncounted(w);
    }
    EndLoopMaster(w, w');
    InvParts(w', b);
  }

  lemma {:induction false} EndLoopMaster(w: When, w': When)
    requires Sized(w) && Sized(w') && MasterOk(w) && SameSubs(w, w') && w.c.remaining >= 0
    requires w.c.failures != [] ==> w.c.remaining > 0
    requires w'.c.remaining == w.c.remaining
    requires w'.c.store == if w.c.remaining == 0 then w.c.store + [w.c.values] else w.c.store
    requires D.FirstSettle(w'.c.masterRun) ==
             if D.FirstSettle(w.c.masterRun).Some? || w.c.remaining != 0 then D.FirstSettle(w.c.masterRun)
             else Some((D.Done, |w.c.store|))
    ensures MasterOk(w')
  {
    hide D.FirstSettle;
  }

  lemma {:induction false} MasterInv(w: When, e: D.Event, b: Bounds)
    requires Inv(w, b) && D.Allowed(w.c.master, e) && !e.Fire?
    ensures Inv(w.(c := Ask(w.c, e)), b)
  {
    hide Inv, SubsOk, Given, ValueOk, Uncounted, FailuresOk, IsDeferred, MasterOk, PosCalled, SettledAt,
         D.FirstSettle, Ask;
    InvParts(w, b);
    var w' := w.(c := Ask(w.c, e));
    MasterAsked(w.c, e);
    AskKeeps(w.c, e);
    SameSubsKeeps(w, w', b);
    UncountedSame(w, w', |w.c.args|);
    MasterUnasked(w, w');
    InvParts(w', b);
  }

  lemma {:induction false} MasterUnasked(w: When, w': When)
    requires Sized(w) && Sized(w') && MasterOk(w) && SameSubs(w, w')
    requires w'.c.looping == w.c.looping && w'.c.store == w.c.store && w'.c.remaining == w.c.remaining
    requires D.FirstSettle(w'.c.masterRun) == D.FirstSettle(w.c.masterRun)
    ensures MasterOk(w')
  {
    hide D.FirstSettle;
  }

  lemma {:induction false} ReactInv(w: When, e: Event)
    requires Inv(w, Even(w.c.i)) && Allowed(w, e)
    ensures Inv(React(w, e), Even(React(w, e).c.i))
  {
    hide Inv, Given, Delivered, Attached, LoopEnded, Ask;
    match e
    case Visit =>
      if w.c.args[w.c.i].Plain? {
        PlainInv(w);
      } else {
        AttachedInv(w);
        PassedInv(Attached(w, w.c.i), w.c.i, Even(w.c.i + 1));
      }
    case EndLoop =>
      EndLoopInv(w, Even(w.c.i));
      EndLoopKeeps(w.c);
    case Sub(j, e) =>
      InvParts(w, Even(w.c.i));
      GivenForeign(w, j, e, Even(w.c.i));
      DeliverInv(w, j, e, Even(w.c.i), Even(w.c.i));
      DeliveredSized(w, j, e);
    case Master(e) =>
      MasterInv(w, e, Even(w.c.i));
      AskKeeps(w.c, e);
  }

  lemma {:induction false} EndLoopKeeps(c: Closure)
    ensures LoopEnded(c).i == c.i && LoopEnded(c).args == c.args
  {
    hide D.React;
  }

  // ----- Runs -----

  ghost predicate IsRun(w: When, events: seq<Event>)
    decreases |events|
  {
    events != [] ==> Allowed(w, events[0]) && IsRun(React(w, events[0]), events[1..])
  }

  ghost function After(w: When, events: seq<Event>): When
    requires IsRun(w, events)
    decreases |events|
  {
    if events == [] then w else After(React(w, events[0]), events[1..])
  }

  lemma {:induction false} RunInv(w: When, events: seq<Event>)
    requires Inv(w, Even(w.c.i)) && IsRun(w, events)
    ensures Inv(After(w, events), Even(After(w, events).c.i))
    decreases |events|
  {
    hide Inv, React, Allowed;
    if events != [] {
      ReactInv(w, events[0]);
      RunInv(React(w, events[0]), events[1..]);
    }
  }

  lemma {:induction false} NothingCalled(w: When, which: D.Which, k: nat)
    requires Sized(w) && SubsOk(w) && k < |w.c.args| && which != D.Progress
    requires forall j :: 0 <= j < |w.runs| ==> AllFrom(D.Listened(w.runs[j], which), Others(w.c.args))
    ensures !PosCalled(w, which, k)
  {
    hide IsDeferred, D.Listened, D.FirstSettle;
    if w.c.args[k].Promise? {
      var j, fn := w.c.args[k].sub, OurFn(which, k);
      OurPosition(w.c.args, which, k);
      var log := D.List(w.subs[j], which).log;
      forall n | 0 <= n < |log| ensures log[n].entry.fn != fn {
        if !D.IsInternal(log[n].entry.fn) {
          CalledGiven(w.subs[j], w.runs[j], which, n);
        }
      }
    }
  }

  lemma {:induction false} StartInv(args: seq<Arg>, content: Data -> seq<Value>, subs: seq<Deferred>,
                                    runs: seq<seq<D.Event>>)
    requires CanStart(args, subs, runs)
    ensures var w := Start(args, content, subs, runs); Inv(w, Even(w.c.i))
  {
    hide D.Listened, IsDeferred, Foreign, AllFrom, PosCalled, D.FirstSettle;
    var w := Start(args, content, subs, runs);
    forall which, j | 0 <= j < |runs| ensures AllFrom(D.Listened(runs[j], which), Others(args)) {
      ForeignListened(args, runs[j], which);
    }
    StartGiven(w);
    forall k: nat | k < |args| ensures !PosCalled(w, D.Done, k) && !PosCalled(w, D.Fail, k) {
      NothingCalled(w, D.Done, k);
      NothingCalled(w, D.Fail, k);
    }
    if |args| > 1 {
      NoneCounted(w, |args|);
    } else {
      AllCounted(w, |args|);
    }
    assert D.FirstSettle([]) == None && IsDeferred(w.c.master, []) by { NewIsDeferred(); }
  }

  lemma {:induction false} NewIsDeferred()
    ensures D.FirstSettle([]) == None && IsDeferred(D.NewDeferred(), [])
  {
    hide D.NewDeferred;
  }

  lemma {:induction false} StartGiven(w: When)
    requires Sized(w) && (w.c.i == 0 || forall k :: 0 <= k < |w.c.args| ==> w.c.args[k].Plain?)
    requires forall which, j :: 0 <= j < |w.runs| ==> AllFrom(D.Listened(w.runs[j], which), Others(w.c.args))
    ensures Given(w, Even(w.c.i))
  {
    hide D.Listened, AllFrom;
    var b := Even(w.c.i);
    forall which, j, k | 0 <= j < |w.runs| && 0 <= k < |w.c.args| ensures GivenAt(w, b, which, j, k) {
      NotGiven(w.c.args, D.Listened(w.runs[j], which), which, k);
    }
  }

  lemma {:induction false} NoneCounted(w: When, n: nat)
    requires Sized(w) && n <= |w.c.args| && w.c.i == 0 && forall k: nat :: k < n ==> !PosCalled(w, D.Done, k)
    ensures Uncounted(w, n) == n
  {
    hide PosCalled;
    if n > 0 {
      NoneCounted(w, n - 1);
    }
  }

  // ----- Main results -----

  ghost predicate CanReach(w: When, args: seq<Arg>, content: Data -> seq<Value>, subs: seq<Deferred>,
                           runs: seq<seq<D.Event>>, events: seq<Event>) {
    && CanStart(args, subs, runs) && IsRun(Start(args, content, subs, runs), events)
    && After(Start(args, content, subs, runs), events) == w
  }

  /** Some run leads here from a call of `when`, for deferreds in any state. */
  ghost predicate Reachable(w: When) {
    exists args, content, subs, runs, events :: CanReach(w, args, content, subs, runs, events)
  }

  lemma {:induction false} ReachableInv(w: When)
    requires Reachable(w)
    ensures Inv(w, Even(w.c.i))
  {
    hide Inv, IsRun, After, CanStart, Start;
    var args, content, subs, runs, events :| CanReach(w, args, content, subs, runs, events);
    StartInv(args, content, subs, runs);
    RunInv(Start(args, content, subs, runs), events);
  }

  /** `remaining` is the number of positions not accounted for: plain values the loop has not reached, and deferreds
      whose done list has not called the function of the position. */
  lemma {:induction false} RemainingCounts(w: When)
    requires Reachable(w)
    ensures Sized(w) && w.c.remaining == Uncounted(w, |w.c.args|)
  {
    ReachableInv(w);
  }

  /** Once the loop is over, each list of the deferred of a position has been given the function of the position,
      exactly once, and no other deferred has. */
  lemma {:induction false} EachGivenOnce(w: When, which: D.Which, j: nat, k: nat)
    requires Reachable(w) && !w.c.looping && j < |w.runs| && k < |w.c.args|
    ensures multiset(D.Listened(w.runs[j], which))[OurFn(which, k)] == if w.c.args[k] == Promise(j) then 1 else 0
  {
    hide D.Listened, Uncounted, ValueOk, FailuresOk, MasterOk, SubsOk, IsDeferred;
    ReachableInv(w);
    assert GivenAt(w, Even(w.c.i), which, j, k);
  }

  ghost predicate IsResolved(w: When, k: nat)
    requires Sized(w) && k < |w.c.args|
  {
    w.c.args[k].Promise? ==> SettledAt(w, k).Some? && SettledAt(w, k).value.0 == D.Done
  }

  /** Position `k` of a list of values has the argument itself, or all that its deferred was first resolved with. */
  ghost predicate HasOutcome(w: When, k: nat, slot: Slot)
    requires Sized(w) && k < |w.c.args|
  {
    && IsResolved(w, k)
    && if w.c.args[k].Plain? then slot == Original(w.c.args[k])
       else Carries(slot, w.c.content(SettledAt(w, k).value.1))
  }

  /** The list of its deferred that settled position `k` is not in the middle of a pass. */
  ghost predicate AtRest(w: When, which: D.Which, k: nat)
    requires Sized(w) && k < |w.c.args|
  {
    w.c.args[k].Promise? ==> !C.Running(D.List(w.subs[w.c.args[k].sub], which))
  }

  /** The master is resolved only when every deferred has been, with the values in the order of the arguments; and
      once the loop is over and the deferreds have finished calling their callbacks, it is. */
  lemma {:induction false} ResolvedWhenAll(w: When)
    requires Reachable(w)
    ensures Sized(w)
    ensures w.c.master.state == D.Resolved ==>
              && D.FirstSettle(w.c.masterRun).Some?
              && var id := D.FirstSettle(w.c.masterRun).value.1;
              && D.SettledBy(w.c.master, D.Done, id) && id < |w.c.store| && |w.c.store[id]| == |w.c.args|
              && forall k :: 0 <= k < |w.c.args| ==> HasOutcome(w, k, w.c.store[id][k])
    ensures !w.c.looping && (forall k :: 0 <= k < |w.c.args| ==> IsResolved(w, k) && AtRest(w, D.Done, k)) ==>
              w.c.master.state == D.Resolved
  {
    hide D.FirstSettle, Counted, Uncounted, IsResolved, AtRest, Inv, D.SettledBy, SubsOk, Given,
         ValueOk, MasterFollows, HasOutcome;
    ReachableInv(w);
    SettledMaster(w);
    InvParts(w, Even(w.c.i));
    AllCounted(w, |w.c.args|);
    forall k | 0 <= k < |w.c.args| ensures Counted(w, k) ==> HasOutcome(w, k, w.c.values[k]) {
      CountedValue(w, k);
    }
    if !w.c.looping && forall k :: 0 <= k < |w.c.args| ==> IsResolved(w, k) && AtRest(w, D.Done, k) {
      forall k | 0 <= k < |w.c.args| ensures Counted(w, k) {
        RestingCounted(w, k);
      }
    }
  }

  lemma {:induction false} CollectedCarries(results: seq<Value>)
    ensures Carries(Collected(results), results)
  {
  }

  lemma {:induction false} CountedValue(w: When, k: nat)
    requires Inv(w, Even(w.c.i)) && k < |w.c.args|
    ensures Counted(w, k) ==> HasOutcome(w, k, w.c.values[k])
  {
    hide D.FirstSettle, HasCalled, IsDeferred, Uncounted, MasterOk, Given, Collected, Carries;
    NotBoth(w, k);
    assert ValueOk(w, k);
    if PosCalled(w, D.Done, k) {
      CollectedCarries(w.c.content(SettledAt(w, k).value.1));
    }
  }

  /** What the state of the master says about the call. */
  lemma {:induction false} SettledMaster(w: When)
    requires Inv(w, Even(w.c.i))
    ensures w.c.master.state == D.Resolved <==>
            w.c.failures == [] && w.c.remaining == 0 && D.FirstSettle(w.c.masterRun).Some?
    ensures !w.c.looping && w.c.remaining == 0 ==> w.c.master.state == D.Resolved
    ensures w.c.master.state == D.Resolved ==>
              var id := D.FirstSettle(w.c.masterRun).value.1;
              D.SettledBy(w.c.master, D.Done, id) && id < |w.c.store| && w.c.store[id] == w.c.values
    ensures w.c.master.state == D.Rejected <==> w.c.failures != []
    ensures w.c.master.state == D.Rejected ==>
              && w.c.failures[0] < |w.c.args| && w.c.args[w.c.failures[0]].Promise?
              && var first := SettledAt(w, w.c.failures[0]);
              first.Some? && first.value.0 == D.Fail && D.SettledBy(w.c.master, D.Fail, first.value.1)
  {
    hide D.FirstSettle, HasCalled, Uncounted, Given, ValueOk;
    D.SettledByFirst(w.c.masterRun);
    NoProgressSettles(w.c.masterRun);
    if w.c.failures != [] {
      FailedUncounted(w);
    }
  }

  lemma {:induction false} RestingCounted(w: When, k: nat)
    requires Inv(w, Even(w.c.i)) && !w.c.looping && k < |w.c.args| && IsResolved(w, k) && AtRest(w, D.Done, k)
    ensures Counted(w, k)
  {
    hide D.FirstSettle, HasCalled, IsDeferred, D.Listened, MasterOk, Uncounted;
    if w.c.args[k].Promise? {
      var j := w.c.args[k].sub;
      var b := Even(w.c.i);
      assert GivenAt(w, b, D.Done, j, k);
      AtRestCalled(w.subs[j], w.runs[j], D.Done, OurFn(D.Done, k));
    }
  }

  /** The master is rejected exactly when some deferred has called the reject function of its position, with what
      the first of them was rejected with; and once the loop is over a rejected deferred has done so when it has
      finished calling its callbacks. */
  lemma {:induction false} RejectedByFirst(w: When)
    requires Reachable(w)
    ensures Sized(w) && FailuresOk(w)
    ensures w.c.master.state == D.Rejected <==> w.c.failures != []
    ensures w.c.master.state == D.Rejected ==>
              && w.c.failures[0] < |w.c.args| && w.c.args[w.c.failures[0]].Promise?
              && var first := SettledAt(w, w.c.failures[0]);
              first.Some? && first.value.0 == D.Fail && D.SettledBy(w.c.master, D.Fail, first.value.1)
    ensures forall k :: 0 <= k < |w.c.args| && !w.c.looping && IsRejected(w, k) && AtRest(w, D.Fail, k) ==>
              k in w.c.failures
  {
    hide D.FirstSettle, HasCalled, Uncounted, Inv, IsRejected, AtRest, FailuresOk, D.SettledBy;
    ReachableInv(w);
    SettledMaster(w);
    InvParts(w, Even(w.c.i));
    forall k | 0 <= k < |w.c.args| && !w.c.looping && IsRejected(w, k) && AtRest(w, D.Fail, k)
      ensures k in w.c.failures
    {
      RestingRejected(w, k);
    }
  }

  ghost predicate IsRejected(w: When, k: nat)
    requires Sized(w) && k < |w.c.args|
  {
    w.c.args[k].Promise? && SettledAt(w, k).Some? && SettledAt(w, k).value.0 == D.Fail
  }

  lemma {:induction false} RestingRejected(w: When, k: nat)
    requires Inv(w, Even(w.c.i)) && !w.c.looping && k < |w.c.args| && IsRejected(w, k) && AtRest(w, D.Fail, k)
    ensures k in w.c.failures
  {
    hide D.FirstSettle, HasCalled, IsDeferred, D.Listened, MasterOk, Uncounted;
    var j, b := w.c.args[k].sub, Even(w.c.i);
    assert GivenAt(w, b, D.Fail, j, k);
    AtRestCalled(w.subs[j], w.runs[j], D.Fail, OurFn(D.Fail, k));
  }

  /** A deferred calls the progress function of position `k`, when it notifies or when the function is added after
      it has: the value of that position, and no other, becomes what the call was given, and a master that is
      still pending takes on a notification with a copy of the values; a settled one stays as it is. */
  lemma {:induction false} ProgressPassedOn(w: When, j: nat, e: D.Event, k: nat)
    requires Sized(w) && IsDeferred(w.c.master, w.c.masterRun) && j < |w.subs| && D.Allowed(w.subs[j], e)
    requires e.which == D.Progress && CallsPosition(w, j, e, k)
    ensures var c, c' := w.c, Delivered(w, j, e).c;
            && k < |c.args| && c'.progress == c.progress[k := c'.progress[k]]
            && Carries(c'.progress[k], c.content(CallOf(w, j, e).value.data))
            && c'.store == c.store + [c'.progress]
            && (c.master.state == D.Pending ==>
                  && c'.master.state == D.Pending
                  && c'.master.progress.accepted == c.master.progress.accepted + [|c.store|])
            && (c.master.state != D.Pending ==> c'.master == c.master)
  {
    hide D.React, D.Inv, D.Notifies, Collected, CallOf, CallsPosition, Carries;
    OneHeed(w, j, e, k);
    CollectedCarries(w.c.content(CallOf(w, j, e).value.data));
    DeliveredSub(w, j, e);
    var notify := D.Fire(D.Progress, |w.c.store|);
    MasterTakes(w.c.master, w.c.masterRun, |w.c.store|);
    assert Delivered(w, j, e).c.master == D.React(w.c.master, notify);
  }

  lemma {:induction false} MasterTakes(d: Deferred, run: seq<D.Event>, data: Data)
    requires IsDeferred(d, run)
    ensures var d' := D.React(d, D.Fire(D.Progress, data));
            if d.state == D.Pending then
              d'.state == D.Pending && d'.progress.accepted == d.progress.accepted + [data]
            else d' == d
  {
    hide D.React, D.Inv, D.Notifies;
    var e := D.Fire(D.Progress, data);
    D.NewNotifies();
    D.RunNotifies(D.NewDeferred(), run);
    D.ReactNotifies(d, e);
    D.ReactState(d, e);
    if d.state != D.Pending {
      D.SettledIgnoresAll(d, D.Progress, data);
    }
  }

  lemma {:induction false} NoProgressSettles(run: seq<D.Event>)
    ensures D.FirstSettle(run).Some? ==> D.FirstSettle(run).value.0 != D.Progress
    decreases |run|
  {
    if run != [] {
      NoProgressSettles(run[1..]);
    }
  }
}
