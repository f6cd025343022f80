/** `then` of jQuery.Deferred (debian/jquery-1.9.1.js): a new deferred that follows what a function makes of the
    outcome of another, or the promise that function returns. */
module ThenMachine {
  import opened Common
  import C = Callbacks
  import D = DeferredMachine
  import W = WhenMachine

  type Data = C.Data
  type Deferred = D.Deferred

  // ----- The functions that `then` makes -----

  /** The function added to each list of the source; those added to a returned promise are the new deferred's own
      resolve, reject and notify. Others use numbers from `OTHERS` on. */
  function Forwarder(which: D.Which): C.Fn {
    match which case Done => 3 case Fail => 4 case Progress => 5
  }

  function Settler(which: D.Which): C.Fn {
    match which case Done => 6 case Fail => 7 case Progress => 8
  }

  const OTHERS: C.Fn := 9

  // ----- A call of `then` -----

  /** What a forwarding function has to pass on: the arguments it was called with when no function was given, a
      list with the value returned, or the promise of the deferred of a given number. */
  datatype Answer = Plain(data: Data) | Promise(sub: nat)

  datatype Three<T> = Three(done: T, fail: T, progress: T) {
    function Of(which: D.Which): T {
      match which case Done => done case Fail => fail case Progress => progress
    }

    function With(which: D.Which, x: T): Three<T> {
      match which
      case Done => this.(done := x)
      case Fail => this.(fail := x)
      case Progress => this.(progress := x)
    }
  }

  /** A promise returned by the function for one of the lists. */
  datatype Hook = Hook(which: D.Which, sub: nat)

  /** `ds[0]` is the source, the others are all that may be returned; `calls` holds the arguments of the forwarding
      functions being called. The runs, `answers` (the latest for each list), `notes` (all for the progress list) and
      `hooks` are history. */
  datatype Then = Then(
    given: Three<bool>,
    attached: nat,
    ds: seq<Deferred>,
    runs: seq<seq<D.Event>>,
    target: Deferred,
    targetRun: seq<D.Event>,
    calls: Three<Option<Data>>,
    answers: Three<Option<Answer>>,
    notes: seq<Answer>,
    hooks: set<Hook>)

  /** The next list gets its forwarding function, a forwarding function learns what to pass on, or anything happens
      to one of the deferreds or, from outside, to the new one. */
  datatype Event =
    | Attach
    | Answered(which: D.Which, answer: Answer)
    | Pool(j: nat, e: D.Event)
    | Target(e: D.Event)

  /** Something happens to the new deferred. */
  function Asked(t: Then, e: D.Event): Then
    requires D.Allowed(t.target, e)
  {
    t.(target := D.React(t.target, e), targetRun := t.targetRun + [e])
  }

  function Heed(t: Then, j: nat, which: D.Which, call: Option<C.Call>): Then {
    if call.None? then t
    else if j == 0 && call.value.entry.fn == Forwarder(which) then
      t.(calls := t.calls.With(which, Some(call.value.data)))
    else if call.value.entry.fn == Settler(which) then Asked(t, D.Fire(which, call.value.data))
    else t
  }

  /** A list of the source waits for its forwarding function. */
  predicate CanMove(t: Then, j: nat, e: D.Event) {
    && |t.ds| == |t.runs| && j < |t.ds| && D.Allowed(t.ds[j], e)
    && (j == 0 && e.Return? ==> t.calls.Of(e.which).None?)
  }

  function Moved(t: Then, j: nat, e: D.Event): Then
    requires CanMove(t, j, e)
  {
    t.(ds := t.ds[j := D.React(t.ds[j], e)], runs := t.runs[j := t.runs[j] + [e]])
  }

  function CallOf(t: Then, j: nat, e: D.Event): Option<C.Call>
    requires CanMove(t, j, e)
  {
    W.NewCall(D.List(t.ds[j], e.which), D.List(D.React(t.ds[j], e), e.which))
  }

  /** Something happens to a deferred, and its list may call one of our functions. */
  function Deliver(t: Then, j: nat, e: D.Event): Then
    requires CanMove(t, j, e)
  {
    Heed(Moved(t, j, e), j, e.which, CallOf(t, j, e))
  }

  lemma {:induction false} DeliverShape(t: Then, j: nat, e: D.Event)
    requires CanMove(t, j, e)
    ensures var t' := Deliver(t, j, e);
            && t'.ds == Moved(t, j, e).ds && t'.runs == Moved(t, j, e).runs && t'.given == t.given
            && t'.attached == t.attached && t'.answers == t.answers && t'.notes == t.notes && t'.hooks == t.hooks
  {
    hide D.React;
  }

  /** The new deferred's resolve, reject and notify are added to the lists of a promise. */
  function Hooked(t: Then, j: nat): Then
    requires |t.ds| == |t.runs| && j < |t.ds|
  {
    var done, fail := Listening(D.Done), Listening(D.Fail);
    DeliverShape(t, j, done);
    var t1 := Deliver(t, j, done);
    DeliverShape(t1, j, fail);
    Deliver(Deliver(t1, j, fail), j, Listening(D.Progress))
  }

  function Listening(which: D.Which): D.Event {
    D.Listen(which, [Settler(which)])
  }

  function Index(which: D.Which): nat {
    match which case Done => 0 case Fail => 1 case Progress => 2
  }

  function Nth(i: nat): D.Which {
    if i == 0 then D.Done else if i == 1 then D.Fail else D.Progress
  }

  ghost predicate Foreign(e: D.Event) {
    e.Listen? ==> forall i :: 0 <= i < |e.fns| ==> e.fns[i] >= OTHERS
  }

  ghost predicate Sized(t: Then) {
    |t.ds| == |t.runs| && |t.ds| > 0 && t.attached <= 3 && forall h :: h in t.hooks ==> h.sub < |t.ds|
  }

  /** A forwarding function answers once for each call, and its list waits for that; without a function given
      for the list the arguments are the answer. */
  ghost predicate Allowed(t: Then, e: Event) {
    && Sized(t)
    && match e
       case Attach => t.attached < 3 && t.calls == Three(None, None, None)
       case Answered(which, answer) =>
         && t.calls.Of(which).Some? && (t.given.Of(which) || answer == Plain(t.calls.Of(which).value))
         && (answer.Promise? ==> answer.sub < |t.ds|)
       case Pool(j, e) => CanMove(t, j, e) && Foreign(e)
       case Target(e) => D.Allowed(t.target, e) && !e.Fire?
  }

  /** The next list of the source is given its forwarding function. */
  function Attached(t: Then): Then
    requires |t.ds| == |t.runs| && |t.ds| > 0
  {
    var which := Nth(t.attached);
    Deliver(t.(attached := t.attached + 1), 0, D.Listen(which, [Forwarder(which)]))
  }

  /** A forwarding function has its answer. */
  function Noted(t: Then, which: D.Which, answer: Answer): Then {
    t.(calls := t.calls.With(which, None), answers := t.answers.With(which, Some(answer)),
       notes := if which == D.Progress then t.notes + [answer] else t.notes,
       hooks := t.hooks + if answer.Promise? then {Hook(which, answer.sub)} else {})
  }

  ghost function React(t: Then, e: Event): Then
    requires Allowed(t, e)
  {
    match e
    case Attach => Attached(t)
    case Answered(which, answer) =>
      var t' := Noted(t, which, answer);
      if answer.Plain? then Asked(t', D.Fire(which, answer.data)) else Hooked(t', answer.sub)
    case Pool(j, e) => Deliver(t, j, e)
    case Target(e) => Asked(t, e)
  }

  // ----- The invariant -----

  ghost predicate DeferredsOk(t: Then) {
    && |t.ds| == |t.runs| && W.IsDeferred(t.target, t.targetRun)
    && forall j :: 0 <= j < |t.ds| ==> W.IsDeferred(t.ds[j], t.runs[j])
  }

  /** How often the source was given each forwarding function. */
  ghost predicate Forwarding(t: Then, attached: nat) {
    && |t.runs| > 0
    && forall v: D.Which ::
         multiset(D.Listened(t.runs[0], v))[Forwarder(v)] == if Index(v) < attached then 1 else 0
  }

  /** Only promises that were returned were given the functions of the new deferred. */
  ghost predicate OnlyHooked(t: Then) {
    forall j, v :: 0 <= j < |t.runs| && Settler(v) in D.Listened(t.runs[j], v) ==>
      exists h :: h in t.hooks && h.sub == j
  }

  ghost predicate HooksGiven(t: Then) {
    forall h, v :: h in t.hooks && h.sub < |t.runs| ==> Settler(v) in D.Listened(t.runs[h.sub], v)
  }

  /** The forwarding function of a list that settles is called once, and then answers once. */
  ghost predicate ForwardOk(t: Then, v: D.Which)
    requires |t.ds| == |t.runs| && |t.ds| > 0
  {
    var first := D.FirstSettle(t.runs[0]);
    && (W.HasCalled(t.ds[0], v, Forwarder(v)) <==> t.calls.Of(v).Some? || t.answers.Of(v).Some?)
    && (t.calls.Of(v).None? || t.answers.Of(v).None?)
    && (t.calls.Of(v).Some? ==> first == Some((v, t.calls.Of(v).value)) && C.Running(D.List(t.ds[0], v)))
    && (t.answers.Of(v).Some? ==> first.Some? && first.value.0 == v)
    && (t.answers.Of(v).Some? && !t.given.Of(v) ==> t.answers.Of(v).value == Plain(first.value.1))
  }

  /** What an answer leads to. */
  ghost predicate AnswerOk(t: Then, v: D.Which) {
    && (t.answers.Of(v).Some? && t.answers.Of(v).value.Plain? ==> D.FirstSettle(t.targetRun).Some?)
    && (forall i :: Hook(v, i) in t.hooks <==> t.answers.Of(v) == Some(Promise(i)))
  }

  ghost predicate SettlersOk(t: Then) {
    forall j, v :: 0 <= j < |t.ds| && v != D.Progress && W.HasCalled(t.ds[j], v, Settler(v)) ==>
      D.FirstSettle(t.targetRun).Some?
  }

  /** The new deferred was settled as a forwarding function answered. */
  ghost predicate ByAnswer(t: Then) {
    var first := D.FirstSettle(t.targetRun);
    first.Some? && first.value.0 != D.Progress && t.answers.Of(first.value.0) == Some(Plain(first.value.1))
  }

  /** The new deferred was settled as the promise that was returned, in the same way and with the same arguments. */
  ghost predicate ByHook(t: Then, h: Hook) {
    h in t.hooks && h.sub < |t.runs| && D.FirstSettle(t.targetRun) == D.FirstSettle(t.runs[h.sub])
  }

  ghost predicate OriginOk(t: Then) {
    D.FirstSettle(t.targetRun).Some? ==> ByAnswer(t) || exists h :: ByHook(t, h)
  }

  ghost predicate Core(t: Then) {
    && Sized(t) && DeferredsOk(t) && SettlersOk(t) && OriginOk(t)
    && (forall v: D.Which :: v != D.Progress ==> ForwardOk(t, v) && AnswerOk(t, v))
  }

  ghost predicate Inv(t: Then) {
    Core(t) && Forwarding(t, t.attached) && OnlyHooked(t) && HooksGiven(t)
  }

  // ----- Firing the new deferred -----

  lemma {:induction false} Fired(d: Deferred, run: seq<D.Event>, e: D.Event)
    requires W.IsDeferred(d, run) && D.Allowed(d, e)
    ensures W.IsDeferred(D.React(d, e), run + [e])
    ensures D.FirstSettle(run + [e]) ==
            if D.FirstSettle(run).Some? then D.FirstSettle(run)
            else if e.Fire? && e.which != D.Progress then Some((e.which, e.data)) else None
  {
    hide D.React;
    W.DeferredStep(d, run, e);
    D.SettleSnoc(run, e);
    assert [e][1..] == [];
  }

  /** What happens to the new deferred from outside settles nothing. */
  lemma {:induction false} AskedCore(t: Then, e: D.Event)
    requires Core(t) && D.Allowed(t.target, e) && !e.Fire?
    ensures Core(Asked(t, e))
  {
    hide D.React, D.FirstSettle, W.IsDeferred, W.HasCalled;
    Fired(t.target, t.targetRun, e);
    if D.FirstSettle(t.targetRun).Some? && !ByAnswer(t) {
      var h :| ByHook(t, h);
      assert ByHook(Asked(t, e), h);
    }
    forall v: D.Which | v != D.Progress ensures ForwardOk(Asked(t, e), v) && AnswerOk(Asked(t, e), v) {
      assert ForwardOk(t, v) && AnswerOk(t, v);
    }
  }

  // ----- Something happens to another deferred -----

  /** The event makes a list of deferred `j` call the given function. */
  ghost predicate CallsFn(t: Then, j: nat, e: D.Event, fn: C.Fn)
    requires CanMove(t, j, e)
  {
    CallOf(t, j, e).Some? && CallOf(t, j, e).value.entry.fn == fn
  }

  lemma {:induction false} CalledStep(t: Then, j: nat, e: D.Event, i: nat, v: D.Which, fn: C.Fn)
    requires DeferredsOk(t) && CanMove(t, j, e) && i < |t.ds| && !D.IsInternal(fn)
    ensures W.HasCalled(Moved(t, j, e).ds[i], v, fn) <==>
            W.HasCalled(t.ds[i], v, fn) || (i == j && v == e.which && CallsFn(t, j, e, fn))
  {
    hide D.React, W.IsDeferred, W.HasCalled, D.Inv;
    if i == j {
      W.DeferredStep(t.ds[j], t.runs[j], e);
      W.CallEffect(t.ds[j], e, v, fn);
    }
  }

  lemma {:induction false} MovedDeferreds(t: Then, j: nat, e: D.Event)
    requires DeferredsOk(t) && CanMove(t, j, e)
    ensures DeferredsOk(Moved(t, j, e))
    ensures forall i :: 0 <= i < |t.ds| && D.FirstSettle(t.runs[i]).Some? ==>
              D.FirstSettle(Moved(t, j, e).runs[i]) == D.FirstSettle(t.runs[i])
  {
    hide D.React, W.IsDeferred, D.FirstSettle;
    W.DeferredStep(t.ds[j], t.runs[j], e);
  }

  lemma {:induction false} DeliverTarget(t: Then, j: nat, e: D.Event)
    requires DeferredsOk(t) && CanMove(t, j, e)
    ensures var t' := Deliver(t, j, e);
            && W.IsDeferred(t'.target, t'.targetRun)
            && D.FirstSettle(t'.targetRun) ==
                 if D.FirstSettle(t.targetRun).Some? then D.FirstSettle(t.targetRun)
                 else if e.which != D.Progress && CallsFn(t, j, e, Settler(e.which))
                 then Some((e.which, CallOf(t, j, e).value.data)) else None
  {
    hide D.React, W.IsDeferred, D.FirstSettle, CallOf;
    if CallsFn(t, j, e, Settler(e.which)) {
      Fired(t.target, t.targetRun, D.Fire(e.which, CallOf(t, j, e).value.data));
    }
  }

  /** A call of one of our functions: it was given to the list, and the list belongs to the settlement. */
  lemma {:induction false} OursCalled(t: Then, j: nat, e: D.Event, fn: C.Fn)
    requires DeferredsOk(t) && CanMove(t, j, e) && e.which != D.Progress && !D.IsInternal(fn) && CallsFn(t, j, e, fn)
    ensures var run := Moved(t, j, e).runs[j];
            && D.FirstSettle(run) == Some((e.which, CallOf(t, j, e).value.data)) && fn in D.Listened(run, e.which)
            && (multiset(D.Listened(run, e.which))[fn] <= 1 ==> !W.HasCalled(t.ds[j], e.which, fn))
  {
    hide D.React, W.IsDeferred, D.FirstSettle, D.Listened, D.Inv;
    var t' := Moved(t, j, e);
    MovedDeferreds(t, j, e);
    var before, after := D.List(t.ds[j], e.which).log, D.List(t'.ds[j], e.which).log;
    W.CalledGiven(t'.ds[j], t'.runs[j], e.which, |after| - 1);
    if multiset(D.Listened(t'.runs[j], e.which))[fn] <= 1 && W.HasCalled(t.ds[j], e.which, fn) {
      W.DeferredStep(t.ds[j], t.runs[j], e);
      D.ReactCalls(t.ds[j], e);
      var n :| 0 <= n < |before| && before[n].entry.fn == fn;
      assert after[n] == before[n];
      W.CalledAtMostOnce(t'.ds[j], t'.runs[j], e.which, n, |after| - 1);
      assert false;
    }
  }

  lemma {:induction false} DeliverForward(t: Then, j: nat, e: D.Event, v: D.Which)
    requires Core(t) && CanMove(t, j, e) && v != D.Progress
    requires multiset(D.Listened(Moved(t, j, e).runs[0], v))[Forwarder(v)] <= 1
    ensures ForwardOk(Deliver(t, j, e), v)
  {
    hide D.React, W.IsDeferred, D.FirstSettle, D.Listened, W.HasCalled, CallOf, OriginOk, SettlersOk, AnswerOk, D.Inv;
    DeliverShape(t, j, e);
    MovedDeferreds(t, j, e);
    CalledStep(t, j, e, 0, v, Forwarder(v));
    assert ForwardOk(t, v);
    if j == 0 {
      W.DeferredStep(t.ds[0], t.runs[0], e);
      if v == e.which && CallsFn(t, j, e, Forwarder(v)) {
        OursCalled(t, j, e, Forwarder(v));
        CallRuns(t, e);
      } else if t.calls.Of(v).Some? {
        D.StaysRunning(t.ds[0], v, e);
      }
    }
  }

  lemma {:induction false} CallRuns(t: Then, e: D.Event)
    requires CanMove(t, 0, e) && D.Inv(t.ds[0]) && CallsFn(t, 0, e, Forwarder(e.which))
    ensures C.Running(D.List(D.React(t.ds[0], e), e.which))
  {
    hide D.React, D.Inv;
    D.ReactCalls(t.ds[0], e);
  }

  lemma {:induction false} DeliverOrigin(t: Then, j: nat, e: D.Event)
    requires Core(t) && CanMove(t, j, e) && OnlyHooked(Moved(t, j, e))
    ensures OriginOk(Deliver(t, j, e)) && SettlersOk(Deliver(t, j, e))
  {
    hide D.React, W.IsDeferred, D.FirstSettle, D.Listened, W.HasCalled, CallOf, ForwardOk, AnswerOk;
    var t' := Deliver(t, j, e);
    DeliverShape(t, j, e);
    MovedDeferreds(t, j, e);
    DeliverTarget(t, j, e);
    if D.FirstSettle(t.targetRun).Some? {
      if !ByAnswer(t) {
        var h :| ByHook(t, h);
        assert ByHook(t', h);
      }
    } else if e.which != D.Progress && CallsFn(t, j, e, Settler(e.which)) {
      OursCalled(t, j, e, Settler(e.which));
      var h :| h in t.hooks && h.sub == j;
      assert ByHook(t', h);
    }
    forall i, v | 0 <= i < |t.ds| && v != D.Progress && W.HasCalled(t'.ds[i], v, Settler(v))
      ensures D.FirstSettle(t'.targetRun).Some?
    {
      CalledStep(t, j, e, i, v, Settler(v));
    }
  }

  lemma {:induction false} DeliverCore(t: Then, j: nat, e: D.Event)
    requires Core(t) && CanMove(t, j, e) && OnlyHooked(Moved(t, j, e))
    requires forall v: D.Which :: multiset(D.Listened(Moved(t, j, e).runs[0], v))[Forwarder(v)] <= 1
    ensures Core(Deliver(t, j, e))
  {
    hide D.React, W.IsDeferred, D.FirstSettle, D.Listened, W.HasCalled, CallOf, ForwardOk, OnlyHooked, OriginOk,
         SettlersOk, Deliver;
    var t' := Deliver(t, j, e);
    DeliverShape(t, j, e);
    MovedDeferreds(t, j, e);
    DeliverTarget(t, j, e);
    DeliverOrigin(t, j, e);
    forall v: D.Which | v != D.Progress ensures ForwardOk(t', v) && AnswerOk(t', v) {
      DeliverForward(t, j, e, v);
      assert AnswerOk(t, v);
    }
  }

  // ----- Who was given which function -----

  lemma {:induction false} GivenMore(t: Then, j: nat, e: D.Event, i: nat, v: D.Which)
    requires CanMove(t, j, e) && i < |t.runs|
    ensures D.Listened(Moved(t, j, e).runs[i], v) ==
            D.Listened(t.runs[i], v) + if i == j && e.Listen? && e.which == v then e.fns else []
  {
    hide D.React;
    if i == j {
      D.ListenedSnoc(t.runs[j], e, v);
      assert [e][1..] == [] && e.Listen? ==> e.fns + [] == e.fns;
    }
  }

  /** What may be added to a list of deferred `j`: functions of others, or the new deferred's if it was returned. */
  ghost predicate Fitting(t: Then, j: nat, e: D.Event) {
    Foreign(e) || (e == Listening(e.which) && exists h :: h in t.hooks && h.sub == j)
  }

  lemma {:induction false} GivenKept(t: Then, j: nat, e: D.Event, n: nat)
    requires CanMove(t, j, e) && Fitting(t, j, e) && Forwarding(t, n) && OnlyHooked(t)
    ensures Forwarding(Moved(t, j, e), n) && OnlyHooked(Moved(t, j, e))
  {
    hide D.React, D.Listened;
    var t' := Moved(t, j, e);
    forall v: D.Which ensures
      multiset(D.Listened(t'.runs[0], v))[Forwarder(v)] == if Index(v) < n then 1 else 0
    {
      GivenMore(t, j, e, 0, v);
      if e.Listen? {
        assert Forwarder(v) !in e.fns;
      }
    }
    forall i, v | 0 <= i < |t'.runs| && Settler(v) in D.Listened(t'.runs[i], v)
      ensures exists h :: h in t'.hooks && h.sub == i
    {
      GivenMore(t, j, e, i, v);
    }
  }

  /** Nothing that was added goes away. */
  ghost predicate GivenGrows(t: Then, t': Then) {
    && |t'.runs| == |t.runs|
    && forall i, v :: 0 <= i < |t.runs| && Settler(v) in D.Listened(t.runs[i], v) ==>
         Settler(v) in D.Listened(t'.runs[i], v)
  }

  lemma {:induction false} GivenStays(t: Then, j: nat, e: D.Event)
    requires CanMove(t, j, e)
    ensures GivenGrows(t, Moved(t, j, e))
  {
    hide D.React, D.Listened;
    var t' := Moved(t, j, e);
    forall i, v | 0 <= i < |t.runs| && Settler(v) in D.Listened(t.runs[i], v)
      ensures Settler(v) in D.Listened(t'.runs[i], v)
    {
      GivenMore(t, j, e, i, v);
    }
  }

  lemma {:induction false} GivenForward(t: Then)
    requires Sized(t) && Forwarding(t, t.attached) && OnlyHooked(t) && t.attached < 3
    ensures var w := Nth(t.attached);
            var t' := Moved(t, 0, D.Listen(w, [Forwarder(w)]));
            Forwarding(t', t.attached + 1) && OnlyHooked(t')
  {
    hide D.React, D.Listened;
    var w := Nth(t.attached);
    var e := D.Listen(w, [Forwarder(w)]);
    var t' := Moved(t, 0, e);
    forall v: D.Which ensures
      multiset(D.Listened(t'.runs[0], v))[Forwarder(v)] == if Index(v) < t.attached + 1 then 1 else 0
    {
      GivenMore(t, 0, e, 0, v);
    }
    forall i, v | 0 <= i < |t'.runs| && Settler(v) in D.Listened(t'.runs[i], v)
      ensures exists h :: h in t'.hooks && h.sub == i
    {
      GivenMore(t, 0, e, i, v);
    }
  }

  /** Everything but the promises returned having been given all three functions. */
  ghost predicate Mostly(t: Then) {
    Core(t) && Forwarding(t, t.attached) && OnlyHooked(t)
  }

  lemma {:induction false} DeliverMostly(t: Then, j: nat, e: D.Event)
    requires Mostly(t) && CanMove(t, j, e) && Fitting(t, j, e)
    ensures Mostly(Deliver(t, j, e)) && GivenGrows(t, Deliver(t, j, e))
  {
    hide D.React, D.Listened, Core, Deliver, Fitting;
    DeliverShape(t, j, e);
    GivenKept(t, j, e, t.attached);
    DeliverCore(t, j, e);
    GivenStays(t, j, e);
  }

  // ----- Every event keeps the invariant -----

  lemma {:induction false} PoolInv(t: Then, j: nat, e: D.Event)
    requires Inv(t) && CanMove(t, j, e) && Foreign(e)
    ensures Inv(Deliver(t, j, e))
  {
    hide D.React, D.Listened, Core, Deliver, Forwarding, OnlyHooked, Foreign;
    DeliverShape(t, j, e);
    DeliverMostly(t, j, e);
  }

  lemma {:induction false} AttachInv(t: Then)
    requires Sized(t) && Inv(t) && t.attached < 3
    ensures Inv(Attached(t))
  {
    hide D.React, D.Listened, Deliver, OnlyHooked, W.HasCalled, D.FirstSettle, W.IsDeferred;
    var w := Nth(t.attached);
    var e := D.Listen(w, [Forwarder(w)]);
    var t1 := t.(attached := t.attached + 1);
    AttachedCore(t);
    GivenForward(t);
    assert OnlyHooked(Moved(t1, 0, e)) && Forwarding(Moved(t1, 0, e), t1.attached) by {
      SameGivens(Moved(t, 0, e), Moved(t1, 0, e), t1.attached);
    }
    DeliverCore(t1, 0, e);
    DeliverShape(t1, 0, e);
    SameGivens(Moved(t1, 0, e), Deliver(t1, 0, e), t1.attached);
    GivenStays(t1, 0, e);
  }

  lemma {:induction false} SameGivens(t: Then, t': Then, n: nat)
    requires t'.runs == t.runs && t'.hooks == t.hooks && Forwarding(t, n) && OnlyHooked(t)
    ensures Forwarding(t', n) && OnlyHooked(t')
  {
  }

  lemma {:induction false} AttachedCore(t: Then)
    requires Core(t) && t.attached < 3
    ensures Core(t.(attached := t.attached + 1))
  {
    hide D.FirstSettle, W.IsDeferred, W.HasCalled;
    var t' := t.(attached := t.attached + 1);
    forall v: D.Which | v != D.Progress ensures ForwardOk(t', v) && AnswerOk(t', v) {
      assert ForwardOk(t, v) && AnswerOk(t, v);
    }
    if h :| ByHook(t, h) {
      assert ByHook(t', h);
    }
  }

  ghost predicate CanAnswer(t: Then, which: D.Which, answer: Answer) {
    && t.calls.Of(which).Some? && (t.given.Of(which) || answer == Plain(t.calls.Of(which).value))
    && (answer.Promise? ==> answer.sub < |t.ds|)
  }

  /** An answer settles nothing that was settled, and explains what it settles. */
  lemma {:induction false} NotedOrigin(t: Then, which: D.Which, answer: Answer)
    requires Core(t) && CanAnswer(t, which, answer)
    ensures OriginOk(Noted(t, which, answer))
  {
    hide D.FirstSettle, W.IsDeferred, W.HasCalled, SettlersOk;
    var t' := Noted(t, which, answer);
    if D.FirstSettle(t.targetRun).Some? {
      if ByAnswer(t) {
        assert ForwardOk(t, D.FirstSettle(t.targetRun).value.0);
        assert ByAnswer(t');
      } else {
        var h :| ByHook(t, h);
        assert ByHook(t', h);
      }
    }
  }

  lemma {:induction false} NotedForward(t: Then, which: D.Which, answer: Answer, v: D.Which)
    requires Core(t) && CanAnswer(t, which, answer) && v != D.Progress
    ensures ForwardOk(Noted(t, which, answer), v)
    ensures answer.Promise? || which != v ==> AnswerOk(Noted(t, which, answer), v)
    ensures forall i :: Hook(v, i) in Noted(t, which, answer).hooks <==>
                        Noted(t, which, answer).answers.Of(v) == Some(Promise(i))
  {
    hide D.FirstSettle, W.IsDeferred, W.HasCalled, SettlersOk, OriginOk;
    assert ForwardOk(t, v) && AnswerOk(t, v);
  }

  lemma {:induction false} PlainInv(t: Then, which: D.Which, data: Data)
    requires Inv(t) && CanAnswer(t, which, Plain(data))
    ensures Inv(Asked(Noted(t, which, Plain(data)), D.Fire(which, data)))
  {
    hide D.FirstSettle, W.IsDeferred, W.HasCalled, D.React, D.Listened, OriginOk, ForwardOk;
    var n, e := Noted(t, which, Plain(data)), D.Fire(which, data);
    var t' := Asked(n, e);
    Fired(t.target, t.targetRun, e);
    assert n.hooks == t.hooks;
    assert OriginOk(t') by {
      NotedOrigin(t, which, Plain(data));
      PlainOrigin(n, which, data);
    }
    forall v: D.Which | v != D.Progress ensures ForwardOk(t', v) && AnswerOk(t', v) {
      NotedForward(t, which, Plain(data), v);
      TargetOnly(n, t', v);
    }
    SameGivens(t, t', t.attached);
  }

  lemma {:induction false} TargetOnly(t: Then, t': Then, v: D.Which)
    requires |t.ds| == |t.runs| && |t.ds| > 0 && ForwardOk(t, v)
    requires t' == t.(target := t'.target, targetRun := t'.targetRun)
    ensures ForwardOk(t', v)
  {
    hide D.FirstSettle, W.HasCalled;
  }

  lemma {:induction false} PlainOrigin(t: Then, which: D.Which, data: Data)
    requires W.IsDeferred(t.target, t.targetRun) && OriginOk(t) && t.answers.Of(which) == Some(Plain(data))
    ensures OriginOk(Asked(t, D.Fire(which, data)))
  {
    hide D.FirstSettle, W.IsDeferred, D.React;
    var t' := Asked(t, D.Fire(which, data));
    Fired(t.target, t.targetRun, D.Fire(which, data));
    if D.FirstSettle(t.targetRun).Some? && !ByAnswer(t) {
      var h :| ByHook(t, h);
      assert ByHook(t', h);
    }
  }

  lemma {:induction false} PromiseMostly(t: Then, which: D.Which, sub: nat)
    requires Mostly(t) && CanAnswer(t, which, Promise(sub))
    ensures Mostly(Noted(t, which, Promise(sub)))
  {
    hide D.FirstSettle, W.IsDeferred, W.HasCalled, D.Listened, OriginOk, ForwardOk, AnswerOk;
    NotedOrigin(t, which, Promise(sub));
    forall v: D.Which | v != D.Progress
      ensures ForwardOk(Noted(t, which, Promise(sub)), v) && AnswerOk(Noted(t, which, Promise(sub)), v)
    {
      NotedForward(t, which, Promise(sub), v);
    }
  }

  lemma {:induction false} PromiseInv(t: Then, which: D.Which, sub: nat)
    requires Inv(t) && CanAnswer(t, which, Promise(sub))
    ensures Inv(Hooked(Noted(t, which, Promise(sub)), sub))
  {
    hide DeferredsOk, SettlersOk, OriginOk, ForwardOk, AnswerOk, D.Listened, D.React, Deliver, Forwarding, OnlyHooked,
         Noted;
    var n := Noted(t, which, Promise(sub));
    PromiseMostly(t, which, sub);
    NotedShape(t, which, sub);
    HookedMostly(n, sub, Hook(which, sub));
  }

  lemma {:induction false} NotedShape(t: Then, which: D.Which, sub: nat)
    ensures var n := Noted(t, which, Promise(sub));
            n.ds == t.ds && n.runs == t.runs && n.hooks == t.hooks + {Hook(which, sub)}
  {
  }

  lemma {:induction false} HookedMostly(t: Then, j: nat, h: Hook)
    requires Mostly(t) && |t.ds| == |t.runs| && j < |t.ds| && h in t.hooks && h.sub == j
    ensures var t' := Hooked(t, j);
            && Mostly(t') && t'.hooks == t.hooks && GivenGrows(t, t')
            && forall v :: Settler(v) in D.Listened(t'.runs[j], v)
  {
    hide Mostly, D.Listened, D.React, Deliver;
    HookStep(t, j, h, D.Done);
    var t1 := Deliver(t, j, Listening(D.Done));
    HookStep(t1, j, h, D.Fail);
    var t2 := Deliver(t1, j, Listening(D.Fail));
    HookStep(t2, j, h, D.Progress);
  }

  lemma {:induction false} HookStep(t: Then, j: nat, h: Hook, w: D.Which)
    requires Mostly(t) && |t.ds| == |t.runs| && j < |t.ds| && h in t.hooks && h.sub == j
    ensures var t' := Deliver(t, j, Listening(w));
            && Mostly(t') && t'.hooks == t.hooks && |t'.runs| == |t'.ds| && GivenGrows(t, t')
            && Settler(w) in D.Listened(t'.runs[j], w)
  {
    hide Core, D.Listened, D.React, Deliver, Forwarding, OnlyHooked;
    DeliverShape(t, j, Listening(w));
    DeliverMostly(t, j, Listening(w));
    GivenMore(t, j, Listening(w), j, w);
  }

  lemma {:induction false} TargetInv(t: Then, e: D.Event)
    requires Inv(t) && D.Allowed(t.target, e) && !e.Fire?
    ensures Inv(Asked(t, e))
  {
    hide Core, D.Listened, D.React;
    AskedCore(t, e);
    SameGivens(t, Asked(t, e), t.attached);
  }

  lemma {:induction false} ReactInv(t: Then, e: Event)
    requires Inv(t) && Allowed(t, e)
    ensures Inv(React(t, e))
  {
    hide Inv, D.React, Deliver, Hooked;
    match e
    case Attach => AttachInv(t);
    case Answered(which, answer) =>
      if answer.Plain? {
        PlainInv(t, which, answer.data);
        assert t.hooks + {} == t.hooks;
      } else {
        PromiseInv(t, which, answer.sub);
      }
    case Pool(j, e) => PoolInv(t, j, e);
    case Target(e) => TargetInv(t, e);
  }

  // ----- Runs -----

  ghost predicate IsRun(t: Then, events: seq<Event>)
    decreases |events|
  {
    events != [] ==> Allowed(t, events[0]) && IsRun(React(t, events[0]), events[1..])
  }

  ghost function After(t: Then, events: seq<Event>): Then
    requires IsRun(t, events)
    decreases |events|
  {
    if events == [] then t else After(React(t, events[0]), events[1..])
  }

  lemma {:induction false} RunInv(t: Then, events: seq<Event>)
    requires Inv(t) && IsRun(t, events)
    ensures Inv(After(t, events))
    decreases |events|
  {
    hide Inv, React;
    if events != [] {
      ReactInv(t, events[0]);
      RunInv(React(t, events[0]), events[1..]);
    }
  }

  /** Deferreds in any state that know nothing of this call yet. */
  ghost predicate CanStart(ds: seq<Deferred>, runs: seq<seq<D.Event>>) {
    && |ds| == |runs| && |ds| > 0
    && (forall j :: 0 <= j < |ds| ==> W.IsDeferred(ds[j], runs[j]))
    && (forall j, i :: 0 <= j < |ds| && 0 <= i < |runs[j]| ==> Foreign(runs[j][i]))
  }

  function Start(given: Three<bool>, ds: seq<Deferred>, runs: seq<seq<D.Event>>): Then {
    Then(given, 0, ds, runs, D.NewDeferred(), [], Three(None, None, None), Three(None, None, None), [], {})
  }

  lemma {:induction false} ForeignListened(run: seq<D.Event>, v: D.Which)
    requires forall i :: 0 <= i < |run| ==> Foreign(run[i])
    ensures forall fn :: fn in D.Listened(run, v) ==> fn >= OTHERS
    decreases |run|
  {
    if run != [] {
      assert Foreign(run[0]);
      ForeignListened(run[1..], v);
    }
  }

  /** What was never given to a list that settles was never called. */
  lemma {:induction false} NotCalled(d: Deferred, run: seq<D.Event>, v: D.Which, fn: C.Fn)
    requires W.IsDeferred(d, run) && v != D.Progress && !D.IsInternal(fn) && fn !in D.Listened(run, v)
    ensures !W.HasCalled(d, v, fn)
  {
    hide W.IsDeferred, D.Listened, D.FirstSettle;
    if n :| 0 <= n < |D.List(d, v).log| && D.List(d, v).log[n].entry.fn == fn {
      W.CalledGiven(d, run, v, n);
    }
  }

  lemma {:induction false} StartInv(given: Three<bool>, ds: seq<Deferred>, runs: seq<seq<D.Event>>)
    requires CanStart(ds, runs)
    ensures Inv(Start(given, ds, runs))
  {
    hide W.HasCalled, D.Listened, Foreign;
    var t := Start(given, ds, runs);
    W.NewIsDeferred();
    forall j, v | 0 <= j < |ds|
      ensures Settler(v) !in D.Listened(runs[j], v) && Forwarder(v) !in D.Listened(runs[j], v)
      ensures v != D.Progress ==> !W.HasCalled(ds[j], v, Settler(v)) && !W.HasCalled(ds[j], v, Forwarder(v))
    {
      ForeignListened(runs[j], v);
      if v != D.Progress {
        NotCalled(ds[j], runs[j], v, Settler(v));
        NotCalled(ds[j], runs[j], v, Forwarder(v));
      }
    }
  }

  ghost predicate CanReach(t: Then, given: Three<bool>, ds: seq<Deferred>, runs: seq<seq<D.Event>>,
                           events: seq<Event>) {
    CanStart(ds, runs) && IsRun(Start(given, ds, runs), events) && After(Start(given, ds, runs), events) == t
  }

  /** Some run leads here from a call of `then`, on a deferred in any state. */
  ghost predicate Reachable(t: Then) {
    exists given, ds, runs, events :: CanReach(t, given, ds, runs, events)
  }

  lemma {:induction false} ReachableInv(t: Then)
    requires Reachable(t)
    ensures Inv(t)
  {
    hide Inv, IsRun, After, CanStart, Start;
    var given, ds, runs, events :| CanReach(t, given, ds, runs, events);
    StartInv(given, ds, runs);
    RunInv(Start(given, ds, runs), events);
  }

  // ----- Main results -----

  /** Once `then` has returned, each list of the source has been given its forwarding function, exactly once. */
  lemma {:induction false} ForwardersAttached(t: Then, which: D.Which)
    requires Reachable(t) && t.attached == 3
    ensures |t.runs| > 0 && multiset(D.Listened(t.runs[0], which))[Forwarder(which)] == 1
  {
    hide Core, D.Listened, OnlyHooked, HooksGiven;
    ReachableInv(t);
  }

  /** How deferred `j` was first settled. */
  ghost function Outcome(t: Then, j: nat): Option<(D.Which, Data)> {
    if j < |t.runs| then D.FirstSettle(t.runs[j]) else None
  }

  /** The new deferred is settled only once, and for a reason: in the way the source was, with what the function
      for that way returned (or, if none was given, with what the source was settled with); or exactly as a promise
      was that one of the functions returned. */
  lemma {:induction false} FollowsSource(t: Then)
    requires Reachable(t)
    ensures D.SettledAs(t.target, D.FirstSettle(t.targetRun))
    ensures D.FirstSettle(t.targetRun).Some? ==>
              var (which, data) := D.FirstSettle(t.targetRun).value;
              || (exists x :: Outcome(t, 0) == Some((which, x)) && t.answers.Of(which) == Some(Plain(data)) &&
                    (t.given.Of(which) || data == x))
              || (exists h :: h in t.hooks && Outcome(t, h.sub) == Some((which, data)))
  {
    hide W.HasCalled, D.Listened, D.FirstSettle, D.React, D.SettledAs, SettlersOk, Forwarding, OnlyHooked, HooksGiven;
    ReachableInv(t);
    D.SettledByFirst(t.targetRun);
    var first := D.FirstSettle(t.targetRun);
    if first.Some? {
      var (which, data) := first.value;
      if ByAnswer(t) {
        assert ForwardOk(t, which);
        assert Outcome(t, 0) == Some((which, D.FirstSettle(t.runs[0]).value.1));
      } else {
        var h :| ByHook(t, h);
        assert h in t.hooks && Outcome(t, h.sub) == Some((which, data));
      }
    }
  }

  /** A promise that was returned, by any of the functions, settles the new deferred when it is settled and its
      callbacks have returned: even while the source is pending, if a progress function returned it. */
  lemma {:induction false} HookSettles(t: Then, h: Hook)
    requires Reachable(t) && h in t.hooks && Outcome(t, h.sub).Some?
    requires h.sub < |t.ds| && !C.Running(D.List(t.ds[h.sub], Outcome(t, h.sub).value.0))
    ensures t.target.state != D.Pending
  {
    hide W.HasCalled, D.Listened, D.FirstSettle, D.React, OriginOk, OnlyHooked, C.Running, D.IsRun, D.After, ForwardOk,
         AnswerOk, Forwarding;
    ReachableInv(t);
    SettledState(t.target, t.targetRun);
    var which := Outcome(t, h.sub).value.0;
    W.NoProgressSettles(t.runs[h.sub]);
    W.AtRestCalled(t.ds[h.sub], t.runs[h.sub], which, Settler(which));
  }

  /** Once the source is settled and its callbacks have returned, its forwarding function has answered: an answer
      that is no promise has settled the new deferred, and a promise has been hooked up. */
  lemma {:induction false} SourceSettles(t: Then, which: D.Which, x: Data)
    requires Reachable(t) && t.attached == 3 && Outcome(t, 0) == Some((which, x))
    requires |t.ds| > 0 && !C.Running(D.List(t.ds[0], which))
    ensures match t.answers.Of(which)
            case None => false
            case Some(Plain(_)) => t.target.state != D.Pending
            case Some(Promise(i)) => Hook(which, i) in t.hooks
  {
    hide W.HasCalled, D.Listened, D.FirstSettle, D.React, OriginOk, OnlyHooked, C.Running, D.IsRun, D.After, SettlersOk;
    ReachableInv(t);
    W.NoProgressSettles(t.runs[0]);
    SettledState(t.target, t.targetRun);
    assert ForwardOk(t, which) && AnswerOk(t, which);
    GivenOnce(t, which);
    W.AtRestCalled(t.ds[0], t.runs[0], which, Forwarder(which));
  }

  lemma {:induction false} GivenOnce(t: Then, which: D.Which)
    requires Forwarding(t, 3)
    ensures Forwarder(which) in D.Listened(t.runs[0], which)
  {
    hide D.Listened;
    assert multiset(D.Listened(t.runs[0], which))[Forwarder(which)] == 1;
  }

  lemma {:induction false} SettledState(d: Deferred, run: seq<D.Event>)
    requires W.IsDeferred(d, run)
    ensures d.state != D.Pending <==> D.FirstSettle(run).Some?
  {
    hide D.FirstSettle, D.Ready, D.Settled, D.UsersOnly, D.Off, D.Locked, D.RemembersFired;
    D.SettledByFirst(run);
  }

  /** What the new deferred is to become, given the outcome of the source and the answer to it. */
  ghost function Expected(t: Then): Option<(D.Which, Data)> {
    var source := Outcome(t, 0);
    if source.None? then None
    else
      match t.answers.Of(source.value.0)
      case None => None
      case Some(Plain(data)) => Some((source.value.0, data))
      case Some(Promise(i)) => Outcome(t, i)
  }

  /** The new deferred becomes what the source and the function for its outcome say, and nothing else, unless
      a promise that a progress function returned was there first. */
  lemma {:induction false} FollowsExactly(t: Then)
    requires Reachable(t)
    ensures var first := D.FirstSettle(t.targetRun);
            first.Some? ==>
              first == Expected(t) || exists h :: h in t.hooks && h.which == D.Progress && Outcome(t, h.sub) == first
  {
    hide W.HasCalled, D.Listened, D.FirstSettle, D.React, SettlersOk, Forwarding, OnlyHooked, HooksGiven;
    ReachableInv(t);
    if D.FirstSettle(t.targetRun).Some? {
      if ByAnswer(t) {
        assert ForwardOk(t, D.FirstSettle(t.targetRun).value.0);
      } else {
        var h :| ByHook(t, h);
        if h.which != D.Progress {
          assert ForwardOk(t, h.which) && AnswerOk(t, h.which);
          assert Hook(h.which, h.sub) == h;
        } else {
          assert h in t.hooks && Outcome(t, h.sub) == D.FirstSettle(t.targetRun);
        }
      }
    }
  }

  /** Notifications are passed on, as long as the new deferred is pending: what the progress function returned, or
      what a promise that was returned notifies of. */
  lemma {:induction false} NotifyPassedOn(t: Then, j: nat, e: D.Event, x: Data)
    requires Reachable(t)
    ensures Allowed(t, Answered(D.Progress, Plain(x))) ==> Notified(t, React(t, Answered(D.Progress, Plain(x))), x)
    ensures CanMove(t, j, e) && e.which == D.Progress && CallsFn(t, j, e, Settler(D.Progress)) ==>
              Notified(t, Deliver(t, j, e), CallOf(t, j, e).value.data)
  {
    hide D.React, CallOf, Core;
    ReachableInv(t);
    assert W.IsDeferred(t.target, t.targetRun) by { TargetIs(t); }
    W.MasterTakes(t.target, t.targetRun, x);
    if CanMove(t, j, e) && CallsFn(t, j, e, Settler(D.Progress)) {
      W.MasterTakes(t.target, t.targetRun, CallOf(t, j, e).value.data);
    }
  }

  lemma {:induction false} TargetIs(t: Then)
    requires Inv(t)
    ensures W.IsDeferred(t.target, t.targetRun)
  {
  }

  /** The new deferred takes the notification on if it is pending, and otherwise stays as it is. */
  ghost predicate Notified(t: Then, t': Then, x: Data) {
    if t.target.state == D.Pending
    then t'.target.state == D.Pending && t'.target.progress.accepted == t.target.progress.accepted + [x]
    else t'.target == t.target
  }
}
