/** ajaxConvert of debian/jquery-1.9.1.js: carries a response through the requested data types, splicing an
    intermediate type into the list it is iterating over when only a pair of converters leads on. */
module AjaxConvert {
  import opened Common

  type Type = string
  type Data = nat
  type Key = (Type, Type)

  /** A table entry: `true`, which declares two types the same, or a converter function. */
  datatype Converter = Equivalence | Convert(f: nat)

  /** The converters by "from to", the order in which they are enumerated, and what each function does
      (None: it throws). */
  datatype Settings = Settings(
    converters: map<Key, Converter>,
    order: seq<Key>,
    call: (nat, Data) -> Option<Data>,
    throws: bool)

  ghost predicate Proper(s: Settings) {
    forall k :: k in s.converters <==> k in s.order
  }

  datatype Outcome =
    | Success(data: Data)
    | NoConversion(from: Type, to: Type)
    | ParserError
    | Thrown

  // ----- What a correct conversion is -----

  /** One use of a table entry. */
  datatype Hop = Hop(from: Type, to: Type, key: Key)

  /** The entry for exactly these types, or else the one from any type. */
  ghost predicate HopOk(s: Settings, h: Hop) {
    && h.key in s.converters
    && h.key == if (h.from, h.to) in s.converters then (h.from, h.to) else ("*", h.to)
  }

  ghost predicate Direct(s: Settings, a: Type, b: Type) {
    (a, b) in s.converters || ("*", b) in s.converters
  }

  ghost predicate ViaType(s: Settings, a: Type, b: Type, mid: Type) {
    Direct(s, a, mid) && (mid, b) in s.converters
  }

  ghost predicate Reachable(s: Settings, a: Type, b: Type) {
    a == b || Direct(s, a, b) || exists mid :: ViaType(s, a, b, mid)
  }

  /** The n-th entry is the first that leads to `b` from a type that can be had from `a`. */
  ghost predicate FirstPair(s: Settings, a: Type, b: Type, n: nat) {
    && n < |s.order| && s.order[n].1 == b && Direct(s, a, s.order[n].0)
    && forall m :: 0 <= m < n && s.order[m].1 == b ==> !Direct(s, a, s.order[m].0)
  }

  /** The pair of converter functions that the table offers first meets at a type with an empty name. */
  ghost predicate ViaEmpty(s: Settings, a: Type, b: Type) {
    && a != b && !Direct(s, a, b)
    && exists n: nat :: FirstPair(s, a, b, n) && s.order[n].0 == "" && IsFunction(s, "", b) && IsFunction(s, a, "")
  }

  /** The entry used from `a` to `b` is a function. */
  ghost predicate IsFunction(s: Settings, a: Type, b: Type) {
    if (a, b) in s.converters then s.converters[(a, b)].Convert?
    else ("*", b) in s.converters && s.converters[("*", b)].Convert?
  }

  /** Of the entries that end a pair from `a` to `b`, this one is listed first. */
  ghost predicate Chosen(s: Settings, a: Type, b: Type, key: Key) {
    exists n: nat :: FirstPair(s, a, b, n) && s.order[n] == key
  }

  /** A leg takes the data from type `a` to type `b`: nothing when they are the same type, one entry when there
      is one for it, and otherwise two entries that meet at an intermediate type, the second being the first of
      its kind in the table. */
  ghost predicate LegOk(s: Settings, a: Type, b: Type, leg: seq<Hop>) {
    if a == b then leg == []
    else if Direct(s, a, b) then |leg| == 1 && leg[0].from == a && leg[0].to == b && HopOk(s, leg[0])
    else
      && |leg| == 2 && leg[0].from == a && leg[0].to == leg[1].from && leg[1].to == b
      && HopOk(s, leg[0]) && HopOk(s, leg[1]) && Chosen(s, a, b, leg[1].key) && !ViaEmpty(s, a, b)
  }

  /** The whole leg, or the first of its two entries. */
  ghost predicate LegBegun(s: Settings, a: Type, b: Type, leg: seq<Hop>) {
    || LegOk(s, a, b, leg)
    || (a != b && !Direct(s, a, b) && |leg| == 1 && leg[0].from == a && HopOk(s, leg[0]) &&
        Chosen(s, a, b, (leg[0].to, b)))
  }

  function Apply(s: Settings, c: Converter, d: Data): Option<Data> {
    if c.Equivalence? then Some(d) else s.call(c.f, d)
  }

  ghost function RunHops(s: Settings, hops: seq<Hop>, d: Data): Option<Data> {
    if hops == [] then Some(d)
    else
      var before := RunHops(s, hops[..|hops| - 1], d);
      var key := hops[|hops| - 1].key;
      if before.None? || key !in s.converters then None else Apply(s, s.converters[key], before.value)
  }

  ghost function RunLegs(s: Settings, legs: seq<seq<Hop>>, d: Data): Option<Data> {
    if legs == [] then Some(d)
    else
      var before := RunLegs(s, legs[..|legs| - 1], d);
      if before.None? then None else RunHops(s, legs[|legs| - 1], before.value)
  }

  /** The legs lead from each stop to the next. */
  ghost predicate LegsOk(s: Settings, stops: seq<Type>, legs: seq<seq<Hop>>) {
    && (if stops == [] then legs == [] else |stops| == |legs| + 1)
    && forall k :: 0 <= k < |legs| ==> LegOk(s, stops[k], stops[k + 1], legs[k])
  }

  /** The types asked for after the first: up to an empty one, without "*". */
  ghost function Rest(types: seq<Type>): seq<Type> {
    if types == [] || types[0] == "" then []
    else if types[0] == "*" then Rest(types[1..])
    else [types[0]] + Rest(types[1..])
  }

  ghost function Targets(types: seq<Type>): seq<Type> {
    if types == [] then []
    else if types[0] == "*" then Rest(types[1..])
    else [types[0]] + Rest(types[1..])
  }

  // ----- Finding the converters for one leg -----

  /** `converters[ a + " " + b ] || converters[ "* " + b ]` */
  method Lookup(s: Settings, a: Type, b: Type) returns (conv: Option<Converter>, ghost hop: Hop)
    ensures conv.Some? <==> Direct(s, a, b)
    ensures conv.Some? ==> hop.from == a && hop.to == b && HopOk(s, hop) && s.converters[hop.key] == conv.value
  {
    hop := Hop(a, b, (a, b));
    if (a, b) in s.converters {
      conv := Some(s.converters[(a, b)]);
    } else if ("*", b) in s.converters {
      conv := Some(s.converters[("*", b)]);
      hop := Hop(a, b, ("*", b));
    } else {
      conv := None;
    }
  }

  /** How to go on from `prev` towards `current`: the converter to apply now, and the type it leads to. */
  datatype Found = Nothing | Use(conv: Converter, to: Type)

  /** The entry to apply now leads to `current` (perhaps with an equivalence before or after it), or to an
      intermediate type with an entry from there on. */
  ghost predicate FoundOk(s: Settings, prev: Type, current: Type, found: Found, hops: seq<Hop>) {
    && found.Use?
    && (forall h :: h in hops ==> HopOk(s, h))
    && (forall d: Data :: RunHops(s, hops, d) == Apply(s, found.conv, d))
    && if found.to == current then LegOk(s, prev, current, hops)
       else
         && !Direct(s, prev, current)
         && (found.to, current) in s.converters && found.to != prev && found.to != "*"
         && |hops| == 1 && hops[0].from == prev && hops[0].to == found.to
         && Chosen(s, prev, current, (found.to, current)) && (found.to == "" <==> ViaEmpty(s, prev, current))
  }

  lemma {:induction false} FirstIsOne(s: Settings, a: Type, b: Type, n: nat)
    requires FirstPair(s, a, b, n) && a != b && !Direct(s, a, b)
    ensures ViaEmpty(s, a, b) <==> s.order[n].0 == "" && IsFunction(s, "", b) && IsFunction(s, a, "")
  {
    if m: nat :| FirstPair(s, a, b, m) && s.order[m].0 == "" && IsFunction(s, "", b) && IsFunction(s, a, "") {
      assert m < n || m == n || n < m;
    }
  }

  lemma {:induction false} OneHop(s: Settings, h: Hop)
    requires HopOk(s, h)
    ensures forall d :: RunHops(s, [h], d) == Apply(s, s.converters[h.key], d)
  {
    forall d ensures RunHops(s, [h], d) == Apply(s, s.converters[h.key], d) {
      assert [h][..0] == [];
    }
  }

  /** Two entries of which one is an equivalence do what the other does. */
  lemma {:induction false} TwoHops(s: Settings, h: Hop, g: Hop)
    requires HopOk(s, h) && HopOk(s, g)
    ensures s.converters[h.key].Equivalence? ==> forall d :: RunHops(s, [h, g], d) == Apply(s, s.converters[g.key], d)
    ensures s.converters[g.key].Equivalence? ==> forall d :: RunHops(s, [h, g], d) == Apply(s, s.converters[h.key], d)
  {
    assert [h, g][..1] == [h];
    OneHop(s, h);
  }

  lemma {:induction false} NoPair(s: Settings, a: Type, b: Type)
    requires Proper(s) && a != b && !Direct(s, a, b)
    requires forall m :: 0 <= m < |s.order| && s.order[m].1 == b ==> !Direct(s, a, s.order[m].0)
    ensures !Reachable(s, a, b)
  {
    forall mid ensures !ViaType(s, a, b, mid) {
      if (mid, b) in s.order {
        var m :| 0 <= m < |s.order| && s.order[m] == (mid, b);
        assert !Direct(s, a, s.order[m].0);
      }
    }
  }

  method Seek(s: Settings, prev: Type, current: Type) returns (found: Found, ghost hops: seq<Hop>)
    requires Proper(s) && prev != current && prev != "*"
    ensures found.Nothing? <==> !Reachable(s, prev, current)
    ensures found.Use? ==> FoundOk(s, prev, current, found, hops)
  {
    hops := [];
    var conv, hop := Lookup(s, prev, current);
    if conv.Some? {
      OneHop(s, hop);
      return Use(conv.value, current), [hop];
    }
    for n := 0 to |s.order|
      invariant forall m :: 0 <= m < n && s.order[m].1 == current ==> !Direct(s, prev, s.order[m].0)
    {
      var conv2 := s.order[n];
      if conv2.1 == current {
        conv, hop := Lookup(s, prev, conv2.0);
        if conv.Some? {
          ghost var onward := Hop(conv2.0, current, conv2);
          assert ViaType(s, prev, current, conv2.0);
          assert FirstPair(s, prev, current, n);
          FirstIsOne(s, prev, current, n);
          assert Chosen(s, prev, current, conv2);
          if conv.value.Equivalence? {
            TwoHops(s, hop, onward);
            return Use(s.converters[conv2], current), [hop, onward];
          } else if s.converters[conv2].Equivalence? {
            TwoHops(s, hop, onward);
            return Use(conv.value, current), [hop, onward];
          } else {
            OneHop(s, hop);
            return Use(conv.value, conv2.0), [hop];
          }
        }
      }
    }
    found := Nothing;
    NoPair(s, prev, current);
  }

  // ----- The loop over the types -----

  /** Everything asked for so far is done: the data has the type of the last stop (none yet while only "*" was
      seen), and `rest` holds the types still to come. */
  ghost predicate Between(s: Settings, types: seq<Type>, d0: Data, rest: seq<Type>, prev: Type,
      stops: seq<Type>, legs: seq<seq<Hop>>, d: Data) {
    && Targets(types) == stops + Rest(rest)
    && (if prev == "*" then stops == [] else stops != [] && stops[|stops| - 1] == prev)
    && LegsOk(s, stops, legs) && RunLegs(s, legs, d0) == Some(d)
  }

  /** The first of two converters has been applied; the data has the intermediate type `prev`, which may still be
      the next in the list, and the entry for the rest of the leg exists. */
  ghost predicate Halfway(s: Settings, types: seq<Type>, d0: Data, rest: seq<Type>, prev: Type,
      stops: seq<Type>, legs: seq<seq<Hop>>, half: Hop, d: Data) {
    && (rest != [] && rest[0] == prev ==> |rest| > 1)
    && rest != []
    && var next := if rest[0] == prev then rest[1..] else rest;
    && next[0] != prev && next[0] != "" && next[0] != "*" && prev != "" && prev != "*"
    && Targets(types) == stops + Rest(next) && !ViaEmpty(s, half.from, next[0])
    && stops != [] && stops[|stops| - 1] == half.from && half.to == prev && HopOk(s, half)
    && half.from != next[0] && !Direct(s, half.from, next[0]) && (prev, next[0]) in s.converters
    && Chosen(s, half.from, next[0], (prev, next[0]))
    && LegsOk(s, stops, legs)
    && RunLegs(s, legs, d0).Some? && RunHops(s, [half], RunLegs(s, legs, d0).value) == Some(d)
  }

  /** The intermediate type has an empty name, and the loop takes it for the end of the list. */
  ghost predicate CutOff(s: Settings, types: seq<Type>, d0: Data, rest: seq<Type>,
      stops: seq<Type>, legs: seq<seq<Hop>>, half: Hop, d: Data) {
    && |rest| > 1 && rest[0] == "" && rest[1] != "" && rest[1] != "*"
    && Targets(types) == stops + Rest(rest[1..])
    && stops != [] && stops[|stops| - 1] == half.from && half.to == "" && HopOk(s, half)
    && half.from != rest[1] && ViaEmpty(s, half.from, rest[1]) && !Direct(s, half.from, rest[1])
    && Chosen(s, half.from, rest[1], ("", rest[1]))
    && LegsOk(s, stops, legs)
    && RunLegs(s, legs, d0).Some? && RunHops(s, [half], RunLegs(s, legs, d0).value) == Some(d)
  }

  lemma {:induction false} RestUnfolds(rest: seq<Type>)
    requires rest != [] && rest[0] != ""
    ensures Rest(rest) == if rest[0] == "*" then Rest(rest[1..]) else [rest[0]] + Rest(rest[1..])
  {
  }

  lemma {:induction false} RunOneMore(s: Settings, legs: seq<seq<Hop>>, leg: seq<Hop>, d0: Data)
    ensures RunLegs(s, legs + [leg], d0)
         == if RunLegs(s, legs, d0).None? then None else RunHops(s, leg, RunLegs(s, legs, d0).value)
  {
    assert (legs + [leg])[..|legs|] == legs;
  }

  lemma {:induction false} OneMoreLeg(s: Settings, stops: seq<Type>, legs: seq<seq<Hop>>, to: Type, leg: seq<Hop>)
    requires LegsOk(s, stops, legs) && stops != [] && LegOk(s, stops[|stops| - 1], to, leg)
    ensures LegsOk(s, stops + [to], legs + [leg])
  {
    hide LegOk;
  }

  /** A leg was completed by `leg` from the last stop to the next type of the list. */
  lemma {:induction false} LegDone(s: Settings, types: seq<Type>, d0: Data, rest: seq<Type>, prev: Type,
      stops: seq<Type>, legs: seq<seq<Hop>>, d: Data, leg: seq<Hop>, d': Data)
    requires Between(s, types, d0, rest, prev, stops, legs, d)
    requires rest != [] && rest[0] != "" && rest[0] != "*" && prev != "*"
    requires LegOk(s, prev, rest[0], leg) && RunHops(s, leg, d) == Some(d')
    ensures Between(s, types, d0, rest[1..], rest[0], stops + [rest[0]], legs + [leg], d')
  {
    hide LegOk, LegsOk, RunLegs, RunHops, Rest, Targets;
    RestUnfolds(rest);
    OneMoreLeg(s, stops, legs, rest[0], leg);
    RunOneMore(s, legs, leg, d0);
  }

  /** The intermediate type was inserted and the first converter applied. */
  lemma {:induction false} HalfDone(s: Settings, types: seq<Type>, d0: Data, rest: seq<Type>, prev: Type,
      stops: seq<Type>, legs: seq<seq<Hop>>, d: Data, found: Found, hops: seq<Hop>, d': Data)
    requires Proper(s) && Between(s, types, d0, rest, prev, stops, legs, d)
    requires rest != [] && rest[0] != "" && rest[0] != "*" && prev != "*" && prev != rest[0]
    requires FoundOk(s, prev, rest[0], found, hops) && found.to != rest[0] && RunHops(s, hops, d) == Some(d')
    ensures if found.to == "" then CutOff(s, types, d0, [found.to] + rest, stops, legs, hops[0], d')
            else Halfway(s, types, d0, [found.to] + rest, found.to, stops, legs, hops[0], d')
  {
    hide LegOk, LegsOk, RunLegs, RunHops, Rest, Targets, ViaEmpty;
    assert hops == [hops[0]];
    assert ([found.to] + rest)[1..] == rest;
    assert hops[0] in hops;
  }

  /** The intermediate type itself needs no conversion. */
  lemma {:induction false} MidPassed(s: Settings, types: seq<Type>, d0: Data, rest: seq<Type>, prev: Type,
      stops: seq<Type>, legs: seq<seq<Hop>>, half: Hop, d: Data)
    requires Halfway(s, types, d0, rest, prev, stops, legs, half, d) && rest[0] == prev
    ensures Halfway(s, types, d0, rest[1..], prev, stops, legs, half, d) && rest[1] != prev
  {
    hide LegOk, LegsOk, RunLegs, RunHops, Rest, Targets;
  }

  /** The second converter completes the leg. */
  lemma {:induction false} OtherHalfDone(s: Settings, types: seq<Type>, d0: Data, rest: seq<Type>, prev: Type,
      stops: seq<Type>, legs: seq<seq<Hop>>, half: Hop, d: Data, found: Found, hops: seq<Hop>, d': Data)
    requires Halfway(s, types, d0, rest, prev, stops, legs, half, d) && rest[0] != prev
    requires FoundOk(s, prev, rest[0], found, hops) && RunHops(s, hops, d) == Some(d')
    ensures found.to == rest[0] && |hops| == 1
    ensures Between(s, types, d0, rest[1..], rest[0], stops + [rest[0]], legs + [[half] + hops], d')
  {
    hide LegsOk, RunLegs, Rest, Targets, ViaEmpty;
    assert found.to == rest[0] && |hops| == 1;
    var leg := [half] + hops;
    RestUnfolds(rest);
    assert hops[0] in hops;
    OneMoreLeg(s, stops, legs, rest[0], leg);
    RunOneMore(s, legs, leg, d0);
    assert leg[..1] == [half];
    OneHop(s, hops[0]);
    assert hops == [hops[0]];
  }

  lemma {:induction false} AtFirst(s: Settings, types: seq<Type>, d: Data)
    requires types != []
    ensures Between(s, types, d, types[1..], types[0], if types[0] == "*" then [] else [types[0]], [], d)
  {
  }

  /** The data was left at a type with an empty name on the way to the next type asked for. */
  ghost predicate EndsEarly(s: Settings, targets: seq<Type>, legs: seq<seq<Hop>>) {
    && 0 < |legs| < |targets| && LegsOk(s, targets[..|legs|], legs[..|legs| - 1])
    && ViaEmpty(s, targets[|legs| - 1], targets[|legs|])
    && LegBegun(s, targets[|legs| - 1], targets[|legs|], legs[|legs| - 1])
    && |legs[|legs| - 1]| == 1 && legs[|legs| - 1][0].to == ""
  }

  /** What the outcome says about the legs taken, for the types asked for. */
  ghost predicate OutcomeOk(s: Settings, targets: seq<Type>, d0: Data, r: Outcome, legs: seq<seq<Hop>>) {
    match r
    case Success(data) =>
      && RunLegs(s, legs, d0) == Some(data)
      && (LegsOk(s, targets, legs) || EndsEarly(s, targets, legs))
    case NoConversion(from, to) =>
      && |legs| + 1 < |targets| && from == targets[|legs|] && to == targets[|legs| + 1] && !Reachable(s, from, to)
      && LegsOk(s, targets[..|legs| + 1], legs) && RunLegs(s, legs, d0).Some?
    case _ =>
      && r == (if s.throws then Thrown else ParserError)
      && 0 < |legs| < |targets| && LegsOk(s, targets[..|legs|], legs[..|legs| - 1])
      && RunLegs(s, legs[..|legs| - 1], d0).Some? && RunLegs(s, legs, d0).None?
      && LegBegun(s, targets[|legs| - 1], targets[|legs|], legs[|legs| - 1])
  }

  lemma {:induction false} Nowhere(s: Settings, d: Data)
    ensures OutcomeOk(s, Targets([]), d, Success(d), [])
  {
  }

  /** Where the loop stands. */
  ghost predicate At(s: Settings, types: seq<Type>, d0: Data, rest: seq<Type>, prev: Type,
      stops: seq<Type>, legs: seq<seq<Hop>>, half: Option<Hop>, d: Data) {
    match half
    case None => Between(s, types, d0, rest, prev, stops, legs, d)
    case Some(hop) =>
      if prev == "" then CutOff(s, types, d0, rest, stops, legs, hop, d)
      else Halfway(s, types, d0, rest, prev, stops, legs, hop, d)
  }

  lemma {:induction false} Finished(s: Settings, types: seq<Type>, d0: Data, rest: seq<Type>, prev: Type,
      stops: seq<Type>, legs: seq<seq<Hop>>, half: Option<Hop>, d: Data)
    requires At(s, types, d0, rest, prev, stops, legs, half, d) && (rest == [] || rest[0] == "")
    ensures exists ls :: OutcomeOk(s, Targets(types), d0, Success(d), ls)
  {
    hide LegsOk, RunLegs, RunHops, Targets, ViaEmpty, Rest;
    if half.None? {
      NoRest(rest);
      assert stops + [] == stops;
      assert OutcomeOk(s, Targets(types), d0, Success(d), legs);
    } else {
      assert prev == "";
      var ls := legs + [[half.value]];
      RestUnfolds(rest[1..]);
      RunOneMore(s, legs, [half.value], d0);
      StopsAndLegs(s, stops, legs);
      assert ls[..|legs|] == legs && (stops + Rest(rest[1..]))[..|stops|] == stops;
      assert OutcomeOk(s, Targets(types), d0, Success(d), ls);
    }
  }

  lemma {:induction false} NoRest(rest: seq<Type>)
    requires rest == [] || rest[0] == ""
    ensures Rest(rest) == []
  {
  }

  /** "*" is passed over. */
  lemma {:induction false} StarPassed(s: Settings, types: seq<Type>, d0: Data, rest: seq<Type>, prev: Type,
      stops: seq<Type>, legs: seq<seq<Hop>>, half: Option<Hop>, d: Data)
    requires At(s, types, d0, rest, prev, stops, legs, half, d) && rest != [] && rest[0] == "*"
    ensures half.None? && At(s, types, d0, rest[1..], prev, stops, legs, half, d)
  {
    hide LegsOk, RunLegs, RunHops, Targets, Rest;
    RestUnfolds(rest);
  }

  /** The first type that is not "*" is taken over without a conversion. */
  lemma {:induction false} FirstStop(s: Settings, types: seq<Type>, d0: Data, rest: seq<Type>,
      stops: seq<Type>, legs: seq<seq<Hop>>, half: Option<Hop>, d: Data)
    requires At(s, types, d0, rest, "*", stops, legs, half, d) && rest != [] && rest[0] != "*" && rest[0] != ""
    ensures half.None? && At(s, types, d0, rest[1..], rest[0], [rest[0]], legs, half, d)
  {
    hide RunLegs, RunHops, Targets, Rest;
    RestUnfolds(rest);
    assert stops == [];
  }

  /** The type the data already has needs no conversion. */
  lemma {:induction false} SamePassed(s: Settings, types: seq<Type>, d0: Data, rest: seq<Type>, prev: Type,
      stops: seq<Type>, legs: seq<seq<Hop>>, d: Data)
    requires Between(s, types, d0, rest, prev, stops, legs, d)
    requires rest != [] && rest[0] == prev && prev != "*" && prev != ""
    ensures Between(s, types, d0, rest[1..], prev, stops + [prev], legs + [[]], d)
  {
    hide LegsOk, RunLegs, Targets, Rest, Between;
    LegDone(s, types, d0, rest, prev, stops, legs, d, [], d);
  }

  lemma {:induction false} NoWayOn(s: Settings, types: seq<Type>, d0: Data, rest: seq<Type>, prev: Type,
      stops: seq<Type>, legs: seq<seq<Hop>>, half: Option<Hop>, d: Data)
    requires At(s, types, d0, rest, prev, stops, legs, half, d)
    requires rest != [] && rest[0] != "" && rest[0] != "*" && prev != "*" && prev != rest[0]
    requires !Reachable(s, prev, rest[0])
    ensures OutcomeOk(s, Targets(types), d0, NoConversion(prev, rest[0]), legs)
  {
    hide RunLegs, RunHops, Targets, Rest, LegOk;
    assert half.None?;
    RestUnfolds(rest);
    assert (stops + Rest(rest))[..|legs| + 1] == stops;
  }

  lemma {:induction false} HalfwayDirect(s: Settings, types: seq<Type>, d0: Data, rest: seq<Type>, prev: Type,
      stops: seq<Type>, legs: seq<seq<Hop>>, half: Hop, d: Data, found: Found, hops: seq<Hop>)
    requires Halfway(s, types, d0, rest, prev, stops, legs, half, d) && rest[0] != prev
    requires FoundOk(s, prev, rest[0], found, hops)
    ensures found.to == rest[0]
  {
    hide LegsOk, RunLegs, RunHops, Targets, Rest;
  }

  /** The last leg, as far as it came, when one of its converters threw. */
  ghost function Attempt(half: Option<Hop>, hops: seq<Hop>): seq<Hop> {
    if half.Some? then [half.value] + hops else hops
  }

  lemma {:induction false} Failed(s: Settings, types: seq<Type>, d0: Data, rest: seq<Type>, prev: Type,
      stops: seq<Type>, legs: seq<seq<Hop>>, half: Option<Hop>, d: Data, found: Found, hops: seq<Hop>)
    requires At(s, types, d0, rest, prev, stops, legs, half, d)
    requires rest != [] && rest[0] != "" && rest[0] != "*" && prev != "*" && prev != rest[0]
    requires FoundOk(s, prev, rest[0], found, hops) && RunHops(s, hops, d).None?
    ensures OutcomeOk(s, Targets(types), d0, if s.throws then Thrown else ParserError, legs + [Attempt(half, hops)])
  {
    hide LegsOk, RunLegs, RunHops, Targets, Rest, LegOk;
    RestUnfolds(rest);
    var leg := Attempt(half, hops);
    RunOneMore(s, legs, leg, d0);
    assert (legs + [leg])[..|legs|] == legs;
    StopsAndLegs(s, stops, legs);
    assert (stops + Rest(rest))[..|stops|] == stops;
    if half.Some? {
      RunBoth(s, half.value, hops, RunLegs(s, legs, d0).value);
    }
    Begun(s, types, d0, rest, prev, stops, legs, half, d, found, hops);
  }

  lemma {:induction false} Begun(s: Settings, types: seq<Type>, d0: Data, rest: seq<Type>, prev: Type,
      stops: seq<Type>, legs: seq<seq<Hop>>, half: Option<Hop>, d: Data, found: Found, hops: seq<Hop>)
    requires At(s, types, d0, rest, prev, stops, legs, half, d)
    requires rest != [] && rest[0] != "" && rest[0] != "*" && prev != "*" && prev != rest[0]
    requires FoundOk(s, prev, rest[0], found, hops)
    ensures stops != [] && LegBegun(s, stops[|stops| - 1], rest[0], Attempt(half, hops))
  {
    hide LegsOk, RunLegs, RunHops, Targets, Rest, ViaEmpty, Chosen;
    if half.None? {
      assert found.to != rest[0] ==> hops[0] in hops;
    } else {
      assert hops[0] in hops;
    }
  }

  lemma {:induction false} StopsAndLegs(s: Settings, stops: seq<Type>, legs: seq<seq<Hop>>)
    requires LegsOk(s, stops, legs) && stops != []
    ensures |stops| == |legs| + 1
  {
  }

  lemma {:induction false} RunBoth(s: Settings, half: Hop, hops: seq<Hop>, d: Data)
    requires RunHops(s, [half], d).Some?
    ensures RunHops(s, [half] + hops, d) == RunHops(s, hops, RunHops(s, [half], d).value)
  {
    if hops == [] {
      assert [half] + hops == [half];
    } else {
      var n := |hops| - 1;
      RunBoth(s, half, hops[..n], d);
      assert ([half] + hops)[..n + 1] == [half] + hops[..n];
    }
  }

  /** Returns the outcome, and the list of types with what was spliced into it. */
  method Convert(s: Settings, types: seq<Type>, response: Data) returns (r: Outcome, dataTypes: seq<Type>)
    requires Proper(s)
    ensures exists legs :: OutcomeOk(s, Targets(types), response, r, legs)
    ensures |types| <= |dataTypes| <= 2 * |types|
  {
    hide Rest, Targets, LegOk, LegsOk, RunLegs, RunHops, FoundOk, Reachable, Halfway, Between, Proper, OutcomeOk;
    dataTypes := types;
    if types == [] {
      Nowhere(s, response);
      return Success(response), dataTypes;
    }
    var prev, i, d := types[0], 0, response;
    ghost var legs: seq<seq<Hop>> := [];
    ghost var stops := if prev == "*" then [] else [prev];
    ghost var half: Option<Hop> := None;
    ghost var budget: nat := |types|;
    AtFirst(s, types, response);
    while i + 1 < |dataTypes| && dataTypes[i + 1] != ""
      invariant 0 <= i < |dataTypes|
      invariant At(s, types, response, dataTypes[i + 1..], prev, stops, legs, half, d)
      invariant |types| <= |dataTypes| <= 2 * |types| - budget
      invariant half.None? ==> budget == |dataTypes| - i
      invariant half.Some? && i + 1 < |dataTypes| ==>
                  budget + 1 == |dataTypes| - i - (if dataTypes[i + 1] == prev then 1 else 0)
      decreases budget, |dataTypes| - i
    {
      i := i + 1;
      var current := dataTypes[i];
      ghost var rest := dataTypes[i..];
      assert rest[1..] == dataTypes[i + 1..];
      if current == "*" {
        StarPassed(s, types, response, rest, prev, stops, legs, half, d);
        budget := budget - 1;
      } else if prev == "*" {
        FirstStop(s, types, response, rest, stops, legs, half, d);
        stops := [current];
        budget := budget - 1;
        prev := current;
      } else if prev == current {
        if half.None? {
          SamePassed(s, types, response, rest, prev, stops, legs, d);
          stops, legs := stops + [prev], legs + [[]];
          budget := budget - 1;
        } else {
          MidPassed(s, types, response, rest, prev, stops, legs, half.value, d);
        }
      } else {
        var found;
        ghost var hops;
        found, hops := Seek(s, prev, current);
        if found.Nothing? {
          NoWayOn(s, types, response, rest, prev, stops, legs, half, d);
          return NoConversion(prev, current), dataTypes;
        }
        ghost var before := d;
        var converted := Apply(s, found.conv, d);
        FoundRuns(s, prev, current, found, hops, d);
        if converted.None? {
          Failed(s, types, response, rest, prev, stops, legs, half, d, found, hops);
          return if s.throws then Thrown else ParserError, dataTypes;
        }
        d := converted.value;
        if half.Some? {
          HalfwayDirect(s, types, response, rest, prev, stops, legs, half.value, before, found, hops);
        }
        if found.to == current {
          if half.Some? {
            OtherHalfDone(s, types, response, rest, prev, stops, legs, half.value, before, found, hops, d);
            legs, stops, half := legs + [[half.value] + hops], stops + [current], None;
          } else {
            FoundLeg(s, prev, current, found, hops);
            LegDone(s, types, response, rest, prev, stops, legs, before, hops, d);
            legs, stops := legs + [hops], stops + [current];
            budget := budget - 1;
          }
        } else {
          HalfDone(s, types, response, rest, prev, stops, legs, before, found, hops, d);
          half := Some(hops[0]);
          current := found.to;
          dataTypes := dataTypes[..i] + [current] + dataTypes[i..];
          i := i - 1;
          budget := budget - 1;
          assert dataTypes[i + 1..] == [current] + rest;
        }
        prev := current;
      }
    }
    Finished(s, types, response, dataTypes[i + 1..], prev, stops, legs, half, d);
    r := Success(d);
  }

  lemma {:induction false} FoundRuns(s: Settings, prev: Type, current: Type, found: Found, hops: seq<Hop>, d: Data)
    requires FoundOk(s, prev, current, found, hops)
    ensures RunHops(s, hops, d) == Apply(s, found.conv, d)
    ensures found.to != current ==> |hops| == 1
  {
  }

  lemma {:induction false} FoundLeg(s: Settings, prev: Type, current: Type, found: Found, hops: seq<Hop>)
    requires FoundOk(s, prev, current, found, hops) && found.to == current
    ensures LegOk(s, prev, current, hops)
  {
  }

  /** A success has carried the data through every type asked for if and only if the table takes no two consecutive
      ones through a type with an empty name; otherwise the loop ends there, early. */
  lemma {:induction false} CompleteUnlessEmpty(s: Settings, targets: seq<Type>, d0: Data, data: Data,
                                               legs: seq<seq<Hop>>)
    requires OutcomeOk(s, targets, d0, Success(data), legs)
    ensures LegsOk(s, targets, legs) <==>
            forall k :: 0 <= k < |targets| - 1 ==> !ViaEmpty(s, targets[k], targets[k + 1])
  {
    hide ViaEmpty, RunLegs, HopOk;
    if LegsOk(s, targets, legs) {
      forall k | 0 <= k < |targets| - 1 ensures !ViaEmpty(s, targets[k], targets[k + 1]) {
        assert LegOk(s, targets[k], targets[k + 1], legs[k]);
        OnlyPairs(s, targets[k], targets[k + 1]);
      }
    } else {
      var k := |legs| - 1;
      assert ViaEmpty(s, targets[k], targets[k + 1]);
    }
  }

  lemma {:induction false} OnlyPairs(s: Settings, a: Type, b: Type)
    ensures ViaEmpty(s, a, b) ==> a != b && !Direct(s, a, b)
  {
  }

  /** Two entries with an empty part are enough: a success leaves the data where the first converter put it. */
  lemma {:induction false} EmptyNameExample(f: nat, g: nat, call: (nat, Data) -> Option<Data>, throws: bool,
                                            d0: Data, data: Data, legs: seq<seq<Hop>>)
    ensures var s, targets := EmptyNamed(f, g, call, throws), ["text", "json"];
            && Proper(s) && Targets(targets) == targets && ViaEmpty(s, "text", "json")
            && (OutcomeOk(s, targets, d0, Success(data), legs) ==>
                  !LegsOk(s, targets, legs) && call(f, d0) == Some(data))
  {
    var s, targets := EmptyNamed(f, g, call, throws), ["text", "json"];
    EmptyNamedOk(f, g, call, throws);
    if OutcomeOk(s, targets, d0, Success(data), legs) {
      CompleteUnlessEmpty(s, targets, d0, data, legs);
      assert ViaEmpty(s, targets[0], targets[1]) && !LegsOk(s, targets, legs);
      assert |legs| == 1 && legs == [legs[0]] && legs[0] == [legs[0][0]];
      var hop := legs[0][0];
      assert !LegOk(s, "text", "json", legs[0]);
      OneLeg(s, hop, d0);
    }
  }

  ghost function EmptyNamed(f: nat, g: nat, call: (nat, Data) -> Option<Data>, throws: bool): Settings {
    var order := [("text", ""), ("", "json")];
    Settings(map[order[0] := Converter.Convert(f), order[1] := Converter.Convert(g)], order, call, throws)
  }

  lemma {:induction false} EmptyNamedOk(f: nat, g: nat, call: (nat, Data) -> Option<Data>, throws: bool)
    ensures var s := EmptyNamed(f, g, call, throws);
            Proper(s) && Targets(["text", "json"]) == ["text", "json"] && ViaEmpty(s, "text", "json")
  {
    var s := EmptyNamed(f, g, call, throws);
    var order := s.order;
    assert Proper(s);
    assert ["text", "json"][1..] == ["json"] && ["json"][1..] == [];
    assert Rest(["json"]) == ["json"];
    assert order[1].1 == "json" && order[0].1 != "json";
    assert !Direct(s, "text", "json") by {
      assert ("text", "json") != order[0] && ("text", "json") != order[1];
      assert ("*", "json") != order[0] && ("*", "json") != order[1];
    }
    assert FirstPair(s, "text", "json", 1);
  }

  lemma {:induction false} OneLeg(s: Settings, h: Hop, d0: Data)
    requires HopOk(s, h)
    ensures RunLegs(s, [[h]], d0) == Apply(s, s.converters[h.key], d0)
  {
    assert [[h]][..0] == [];
    OneHop(s, h);
  }
}
