/** The data cache of debian/jquery-1.9.1.js: entries under recycled ids, and the path on which
    removing the last event of an element destroys its entry in the middle of cleanData. */
module DataCache {
  import opened Common

  /** A DOM node, by identity. */
  type Node = nat
  type Id = nat
  type EventType = string

  /** An element's entry: bound events (with the original type of each handler), the shared event handle,
      the user's data object and other private keys. */
  datatype Entry = Entry(
    events: Option<map<EventType, seq<EventType>>>,
    handle: bool,
    data: Option<set<string>>,
    others: set<string>)

  const EMPTY := Entry(None, false, None, {})

  /** isEmptyDataObject */
  predicate IsEmpty(e: Entry) {
    e.events.None? && !e.handle && e.others == {} && (e.data.None? || e.data.value == {})
  }

  /** The handlers of a list that were not bound as `t`. */
  function Without(handlers: seq<EventType>, t: EventType): seq<EventType> {
    if handlers == [] then []
    else
      var last := handlers[|handlers| - 1];
      Without(handlers[..|handlers| - 1], t) + if last == t then [] else [last]
  }

  /** `kept` are the handlers at the positions `at`: all those that were not bound as `t`, in order. */
  ghost predicate Picks(handlers: seq<EventType>, t: EventType, kept: seq<EventType>, at: seq<nat>) {
    && |at| == |kept| && (forall i :: 0 <= i < |at| ==> at[i] < |handlers| && kept[i] == handlers[at[i]])
    && (forall i, j :: 0 <= i < j < |at| ==> at[i] < at[j])
    && (forall j :: 0 <= j < |handlers| ==> (j in at <==> handlers[j] != t))
  }

  lemma {:induction false} WithoutPicks(handlers: seq<EventType>, t: EventType) returns (at: seq<nat>)
    ensures Picks(handlers, t, Without(handlers, t), at)
  {
    if handlers == [] {
      at := [];
    } else {
      var last := |handlers| - 1;
      var before := WithoutPicks(handlers[..last], t);
      at := before + if handlers[last] == t then [] else [last];
      PicksMore(handlers[..last], t, Without(handlers[..last], t), before, handlers[last]);
      assert handlers == handlers[..last] + [handlers[last]];
    }
  }

  lemma {:induction false} PicksMore(handlers: seq<EventType>, t: EventType, kept: seq<EventType>, at: seq<nat>,
                                     last: EventType)
    requires Picks(handlers, t, kept, at)
    ensures last == t ==> Picks(handlers + [last], t, kept, at)
    ensures last != t ==> Picks(handlers + [last], t, kept + [last], at + [|handlers|])
  {
    var all, more := handlers + [last], at + [|handlers|];
    assert forall j :: 0 <= j < |handlers| ==> all[j] == handlers[j];
    assert forall i :: 0 <= i < |at| ==> at[i] in at && at[i] < |handlers|;
    assert forall j :: j in more <==> j in at || j == |handlers|;
  }

  /** The lists left when the handlers bound as `t` are taken out of list `list`; an emptied list goes. */
  function WithoutHandlers(events: map<EventType, seq<EventType>>, list: EventType, t: EventType)
    : map<EventType, seq<EventType>>
  {
    if list !in events || events[list] == [] then events
    else if Without(events[list], t) == [] then events - {list}
    else events[list := Without(events[list], t)]
  }

  /** `delete` of one key of an entry */
  function DeleteKey(e: Entry, key: string): Entry {
    if key == "events" then e.(events := None)
    else if key == "handle" then e.(handle := false)
    else if key == "data" then e.(data := None)
    else e.(others := e.others - {key})
  }

  function DeleteKeys(e: Entry, keys: seq<string>): Entry {
    if keys == [] then e else DeleteKey(DeleteKeys(e, keys[..|keys| - 1]), keys[|keys| - 1])
  }

  /** The names of the fields of an entry that are there. */
  function Keys(e: Entry): set<string> {
    (if e.events.Some? then {"events"} else {}) + (if e.handle then {"handle"} else {})
    + (if e.data.Some? then {"data"} else {}) + e.others
  }

  ghost predicate Apart(e: Entry) {
    e.others !! {"events", "handle", "data"}
  }

  function Named(keys: seq<string>): set<string> {
    set k | k in keys
  }

  lemma {:induction false} KeyDeleted(e: Entry, key: string)
    requires Apart(e)
    ensures Apart(DeleteKey(e, key)) && Keys(DeleteKey(e, key)) == Keys(e) - {key}
  {
  }

  /** Deleting keys removes exactly those, and what stays keeps its contents. */
  lemma {:induction false} KeysDeleted(e: Entry, keys: seq<string>)
    requires Apart(e)
    ensures Apart(DeleteKeys(e, keys)) && Keys(DeleteKeys(e, keys)) == Keys(e) - Named(keys)
    ensures DeleteKeys(e, keys).events.Some? ==> DeleteKeys(e, keys).events == e.events
    ensures DeleteKeys(e, keys).data == if "data" in keys then None else e.data
  {
    if keys == [] {
      assert Named(keys) == {};
    } else {
      var last := |keys| - 1;
      KeysDeleted(e, keys[..last]);
      KeyDeleted(DeleteKeys(e, keys[..last]), keys[last]);
      assert keys == keys[..last] + [keys[last]];
      assert Named(keys) == Named(keys[..last]) + {keys[last]};
    }
  }

  // ----- Ids -----

  /** `elem[ expando ]` of every node, jQuery.cache, core_deletedIds and jQuery.guid. */
  datatype Store = Store(expando: map<Node, Id>, cache: map<Id, Entry>, deletedIds: seq<Id>, guid: Id)

  ghost predicate LiveOk(s: Store) {
    && s.guid > 0
    && (forall n :: n in s.expando ==> 0 < s.expando[n] < s.guid && s.expando[n] in s.cache)
    && Injective(s.expando)
    && (forall id :: id in s.cache ==> Owned(s, id))
  }

  ghost predicate Injective(expando: map<Node, Id>) {
    forall m, n :: m in expando && n in expando && expando[m] == expando[n] ==> m == n
  }

  ghost predicate Owned(s: Store, id: Id) {
    exists n :: n in s.expando && s.expando[n] == id
  }

  ghost predicate FreeOk(s: Store) {
    && (forall i :: 0 <= i < |s.deletedIds| ==> 0 < s.deletedIds[i] < s.guid && s.deletedIds[i] !in s.cache)
    && (forall i, j :: 0 <= i < j < |s.deletedIds| ==> s.deletedIds[i] != s.deletedIds[j])
  }

  /** Live nodes have different ids, each with an entry; the free list has no duplicate and no live id;
      every id is below the counter. */
  ghost predicate Valid(s: Store) {
    LiveOk(s) && FreeOk(s)
  }

  /** `core_deletedIds.pop() || jQuery.guid++`, for a node without an id */
  function Allocate(s: Store, elem: Node): Store {
    if elem in s.expando then s
    else if s.deletedIds != [] then
      var n := |s.deletedIds| - 1;
      s.(expando := s.expando[elem := s.deletedIds[n]],
         cache := s.cache[s.deletedIds[n] := EMPTY],
         deletedIds := s.deletedIds[..n])
    else s.(expando := s.expando[elem := s.guid], cache := s.cache[s.guid := EMPTY], guid := s.guid + 1)
  }

  /** The entry and the id of a node go, and the id is free again. */
  function Free(s: Store, elem: Node): Store {
    if elem !in s.expando then s
    else s.(expando := s.expando - {elem},
            cache := s.cache - {s.expando[elem]},
            deletedIds := s.deletedIds + [s.expando[elem]])
  }

  function Update(s: Store, elem: Node, e: Entry): Store {
    if elem in s.expando then s.(cache := s.cache[s.expando[elem] := e]) else s
  }

  /** The id freed last is the first to be given out again; without a free one the counter is drawn. */
  lemma {:induction false} RecycledFirst(s: Store, elem: Node, next: Node)
    requires elem in s.expando && next != elem && next !in s.expando
    ensures var s' := Allocate(Free(s, elem), next);
            && s'.expando == (s.expando - {elem})[next := s.expando[elem]] && s'.deletedIds == s.deletedIds
            && s'.guid == s.guid && s'.cache == (s.cache - {s.expando[elem]})[s.expando[elem] := EMPTY]
    ensures s.deletedIds == [] ==>
              var s' := Allocate(s, next);
              && s'.expando == s.expando[next := s.guid] && s'.cache == s.cache[s.guid := EMPTY]
              && s'.deletedIds == [] && s'.guid == s.guid + 1
  {
    var freed := Free(s, elem);
    assert freed.deletedIds[..|s.deletedIds|] == s.deletedIds;
  }

  /** `elem` gets the unused id `id`. */
  lemma {:induction false} BindLive(s: Store, elem: Node, id: Id, s': Store)
    requires LiveOk(s) && elem !in s.expando && id !in s.cache && 0 < id < s'.guid && s.guid <= s'.guid
    requires s'.expando == s.expando[elem := id] && s'.cache == s.cache[id := EMPTY]
    ensures LiveOk(s')
  {
    forall k | k in s'.cache ensures Owned(s', k) {
      if k == id {
        assert s'.expando[elem] == k;
      } else {
        assert Owned(s, k);
        var n :| n in s.expando && s.expando[n] == k;
        assert s'.expando[n] == k;
      }
    }
  }

  lemma {:induction false} LiveEntry(s: Store, elem: Node)
    requires LiveOk(s) && elem in s.expando
    ensures s.expando[elem] in s.cache
  {
  }

  lemma {:induction false} UpdateTwice(s: Store, elem: Node, e: Entry, e': Entry)
    ensures Update(Update(s, elem, e), elem, e') == Update(s, elem, e')
  {
  }

  lemma {:induction false} FreeUpdated(s: Store, elem: Node, e: Entry)
    ensures Free(Update(s, elem, e), elem) == Free(s, elem)
  {
    if elem in s.expando {
      var id := s.expando[elem];
      assert s.cache[id := e] - {id} == s.cache - {id};
    }
  }

  lemma {:induction false} UpdateSame(s: Store, elem: Node)
    requires elem in s.expando && s.expando[elem] in s.cache
    ensures Update(s, elem, s.cache[s.expando[elem]]) == s
  {
    var id := s.expando[elem];
    assert s.cache[id := s.cache[id]] == s.cache;
  }

  lemma {:induction false} AllocateValid(s: Store, elem: Node)
    requires Valid(s)
    ensures Valid(Allocate(s, elem)) && elem in Allocate(s, elem).expando
  {
    hide LiveOk;
    var s' := Allocate(s, elem);
    if elem !in s.expando {
      UnusedId(s);
      BindLive(s, elem, s'.expando[elem], s');
      assert FreeOk(s');
    }
  }

  /** The id about to be given out is not in use. */
  lemma {:induction false} UnusedId(s: Store)
    requires Valid(s)
    ensures s.guid > 0 && s.guid !in s.cache
    ensures s.deletedIds != [] ==>
              var id := s.deletedIds[|s.deletedIds| - 1]; 0 < id < s.guid && id !in s.cache
  {
  }

  lemma {:induction false} FreeValid(s: Store, elem: Node)
    requires Valid(s)
    ensures Valid(Free(s, elem))
  {
    FreeLive(s, elem);
  }

  lemma {:induction false} FreeLive(s: Store, elem: Node)
    requires LiveOk(s)
    ensures LiveOk(Free(s, elem))
  {
    var s' := Free(s, elem);
    if elem in s.expando {
      forall k | k in s'.cache ensures Owned(s', k) {
        assert Owned(s, k);
        var n :| n in s.expando && s.expando[n] == k;
        assert s'.expando[n] == k;
      }
    }
  }

  lemma {:induction false} UpdateValid(s: Store, elem: Node, e: Entry)
    requires Valid(s)
    ensures Valid(Update(s, elem, e))
  {
    UpdateLive(s, elem, e);
  }

  lemma {:induction false} UpdateLive(s: Store, elem: Node, e: Entry)
    requires LiveOk(s)
    ensures LiveOk(Update(s, elem, e))
  {
    var s' := Update(s, elem, e);
    forall k | k in s'.cache ensures Owned(s', k) {
      assert Owned(s, k);
    }
  }

  // ----- What the operations make of the store -----

  /** jQuery.event.remove( elem, t ) when handlers bound as `t` are kept in list `list` */
  function EventsRemoved(s: Store, elem: Node, list: EventType, t: EventType): Store
    requires LiveOk(s)
  {
    if elem !in s.expando then s
    else
      var e := s.cache[s.expando[elem]];
      if e.events.None? then s
      else
        var events := WithoutHandlers(e.events.value, list, t);
        if events != map[] then Update(s, elem, e.(events := Some(events)))
        else if IsEmpty(e.(events := None, handle := false)) then Free(s, elem)
        else Update(s, elem, e.(events := None, handle := false))
  }

  /** internalRemoveData( elem, names, pvt ) */
  function DataRemoved(s: Store, elem: Node, names: Option<seq<string>>, pvt: bool): Store
    requires LiveOk(s)
  {
    if elem !in s.expando then s
    else
      var e := Kept(s.cache[s.expando[elem]], names, pvt);
      if Discards(s.cache[s.expando[elem]], names, pvt) then Free(s, elem) else Update(s, elem, e)
  }

  function Remaining(data: set<string>, names: seq<string>): set<string> {
    set k | k in data && k !in names
  }

  /** What is left of an entry, when it is not discarded. */
  function Kept(e: Entry, names: Option<seq<string>>, pvt: bool): Entry {
    if pvt then if names.Some? then DeleteKeys(e, names.value) else e
    else if names.Some? && e.data.Some? && Remaining(e.data.value, names.value) != {} then
      e.(data := Some(Remaining(e.data.value, names.value)))
    else e.(data := None)
  }

  predicate Discards(e: Entry, names: Option<seq<string>>, pvt: bool) {
    if pvt then names.Some? ==> IsEmpty(DeleteKeys(e, names.value))
    else IsEmpty(Kept(e, names, pvt))
  }

  function AllFreed(s: Store, elems: seq<Node>): Store {
    if elems == [] then s else Free(AllFreed(s, elems[..|elems| - 1]), elems[|elems| - 1])
  }

  /** With no list left, removing the key "events" discards the entry unless something else is in it. */
  lemma {:induction false} LastEventRemoved(s: Store, elem: Node, e: Entry)
    requires LiveOk(s) && elem in s.expando
    ensures LiveOk(Update(s, elem, e.(handle := false)))
    ensures DataRemoved(Update(s, elem, e.(handle := false)), elem, Some(["events"]), true)
         == var left := e.(events := None, handle := false);
            if IsEmpty(left) then Free(s, elem) else Update(s, elem, left)
  {
    hide LiveOk, IsEmpty;
    var e' := e.(handle := false);
    assert LiveOk(Update(s, elem, e')) by { UpdateLive(s, elem, e'); }
    FreeUpdated(s, elem, e');
    assert DeleteKeys(e', ["events"]) == e.(events := None, handle := false) by {
      assert ["events"][..0] == [];
    }
    UpdateTwice(s, elem, e', e'.(events := None));
  }

  lemma {:induction false} EmptyHasNoEvents(s: Store, elem: Node)
    requires elem in s.expando && s.expando[elem] in s.cache
    ensures IsEmpty(s.cache[s.expando[elem]]) ==> s.cache[s.expando[elem]].events.None?
  {
  }

  /** Removing events in the middle of cleaning changes the entry, or completes the cleaning. */
  lemma {:induction false} EventRemovedOrFreed(s: Store, elem: Node, e: Entry, list: EventType, t: EventType)
    requires elem in s.expando && LiveOk(Update(s, elem, e))
    ensures var s' := EventsRemoved(Update(s, elem, e), elem, list, t);
            if elem in s'.expando then s'.expando[elem] in s'.cache && s' == Update(s, elem, s'.cache[s.expando[elem]])
            else s' == Free(s, elem)
  {
    hide LiveOk, IsEmpty, WithoutHandlers;
    FreeUpdated(s, elem, e);
    var events := WithoutHandlers(if e.events.Some? then e.events.value else map[], list, t);
    UpdateTwice(s, elem, e, e.(events := Some(events)));
    UpdateTwice(s, elem, e, e.(events := None, handle := false));
  }

  // ----- Runs -----

  /** Anything a page can have jQuery do with data: write an entry (creating it when needed), remove events,
      remove data, clean a list of nodes, or draw from jQuery.guid for something else. */
  datatype Op =
    | Write(elem: Node, entry: Entry)
    | RemoveEvents(elem: Node, list: EventType, boundAs: EventType)
    | RemoveData(elem: Node, names: Option<seq<string>>, pvt: bool)
    | Clean(elems: seq<Node>)
    | DrawGuid

  ghost function Do(s: Store, op: Op): Store
    requires Valid(s)
  {
    match op
    case Write(elem, e) => Update(Allocate(s, elem), elem, e)
    case RemoveEvents(elem, list, t) => EventsRemoved(s, elem, list, t)
    case RemoveData(elem, names, pvt) => DataRemoved(s, elem, names, pvt)
    case Clean(elems) => AllFreed(s, elems)
    case DrawGuid => s.(guid := s.guid + 1)
  }

  const START := Store(map[], map[], [], 1)

  ghost function After(ops: seq<Op>): (s: Store)
    ensures Valid(s)
  {
    if ops == [] then START
    else
      var s := After(ops[..|ops| - 1]);
      DoValid(s, ops[|ops| - 1]);
      Do(s, ops[|ops| - 1])
  }

  /** The most nodes that had data at one time. */
  ghost function Peak(ops: seq<Op>): nat {
    if ops == [] then 0
    else Max(Peak(ops[..|ops| - 1]), |After(ops).expando|)
  }

  function Max(a: nat, b: nat): nat {
    if a < b then b else a
  }

  lemma {:induction false} AllFreedValid(s: Store, elems: seq<Node>)
    requires Valid(s)
    ensures Valid(AllFreed(s, elems))
  {
    hide Valid;
    if elems != [] {
      AllFreedValid(s, elems[..|elems| - 1]);
      FreeValid(AllFreed(s, elems[..|elems| - 1]), elems[|elems| - 1]);
    }
  }

  lemma {:induction false} DoValid(s: Store, op: Op)
    requires Valid(s)
    ensures Valid(Do(s, op))
  {
    hide LiveOk, FreeOk;
    match op
    case Write(elem, e) =>
      AllocateValid(s, elem);
      UpdateValid(Allocate(s, elem), elem, e);
    case RemoveEvents(elem, list, t) =>
      EventsRemovedCases(s, elem, list, t);
    case RemoveData(elem, names, pvt) =>
      DataRemovedCases(s, elem, names, pvt);
    case Clean(elems) =>
      AllFreedValid(s, elems);
    case DrawGuid =>
      DrawGuidValid(s);
  }

  lemma {:induction false} DrawGuidValid(s: Store)
    requires Valid(s)
    ensures Valid(s.(guid := s.guid + 1))
  {
    var s' := s.(guid := s.guid + 1);
    forall k | k in s'.cache ensures Owned(s', k) {
      assert Owned(s, k);
    }
  }

  /** Removing events or data never takes an id from a node without giving it back. */
  lemma {:induction false} EventsRemovedCases(s: Store, elem: Node, list: EventType, t: EventType)
    requires Valid(s)
    ensures Valid(EventsRemoved(s, elem, list, t))
    ensures EventsRemoved(s, elem, list, t) == Free(s, elem)
         || exists e :: EventsRemoved(s, elem, list, t) == Update(s, elem, e)
  {
    hide LiveOk, FreeOk, WithoutHandlers, IsEmpty;
    if elem in s.expando {
      LiveEntry(s, elem);
      UpdateSame(s, elem);
      var e := s.cache[s.expando[elem]];
      if e.events.Some? {
        var events := WithoutHandlers(e.events.value, list, t);
        UpdateValid(s, elem, e.(events := Some(events)));
        UpdateValid(s, elem, e.(events := None, handle := false));
        FreeValid(s, elem);
      }
    }
  }

  /** An id is freed by removing private keys exactly when at most an empty data object would be left. */
  lemma {:induction false} PrivateRemovalMeans(s: Store, elem: Node, keys: seq<string>)
    requires Valid(s) && elem in s.expando && Apart(s.cache[s.expando[elem]])
    ensures var e := s.cache[s.expando[elem]];
            elem !in DataRemoved(s, elem, Some(keys), true).expando <==>
            Keys(e) - Named(keys) <= {"data"} && ("data" in keys || e.data.None? || e.data.value == {})
  {
    hide FreeOk, Keys, Named, Apart, IsEmpty;
    LiveEntry(s, elem);
    KeysDeleted(s.cache[s.expando[elem]], keys);
    EmptyMeans(DeleteKeys(s.cache[s.expando[elem]], keys));
  }

  /** Removing public data frees the id exactly when no public key is left and nothing else was there. */
  lemma {:induction false} PublicRemovalMeans(s: Store, elem: Node, names: Option<seq<string>>)
    requires Valid(s) && elem in s.expando && Apart(s.cache[s.expando[elem]])
    ensures var e := s.cache[s.expando[elem]];
            elem !in DataRemoved(s, elem, names, false).expando <==>
            Keys(e) <= {"data"} && (names.None? || e.data.None? || e.data.value <= Named(names.value))
  {
    hide FreeOk;
    LiveEntry(s, elem);
    var e := s.cache[s.expando[elem]];
    EmptyMeans(e.(data := None));
    if names.Some? && e.data.Some? {
      assert Remaining(e.data.value, names.value) == e.data.value - Named(names.value);
      assert e.data.value <= (e.data.value - Named(names.value)) + Named(names.value);
    }
    assert Keys(e.(data := None)) == Keys(e) - {"data"};
    assert Keys(e) - {"data"} <= {"data"} <==> Keys(e) <= {"data"} by {
      assert Keys(e) <= (Keys(e) - {"data"}) + {"data"};
    }
  }

  ghost function PublicKeys(e: Entry): set<string> {
    if e.data.Some? then e.data.value else {}
  }

  /** Nothing but the entry of `elem` is different. */
  ghost predicate OnlyEntry(s: Store, elem: Node, s': Store) {
    && s' == s.(cache := s'.cache) && s'.cache.Keys == s.cache.Keys
    && forall id :: id in s.cache && !(elem in s.expando && id == s.expando[elem]) ==> s'.cache[id] == s.cache[id]
  }

  /** Removing public data that leaves the node its id takes exactly the named public keys, or all when none is
      named, and the data object with the last of them; everything else stays. */
  lemma {:induction false} PublicKeysRemoved(s: Store, elem: Node, names: Option<seq<string>>)
    requires Valid(s) && elem in DataRemoved(s, elem, names, false).expando
    ensures var s' := DataRemoved(s, elem, names, false);
            && elem in s.expando && s.expando[elem] in s.cache && OnlyEntry(s, elem, s')
            && var e, e' := s.cache[s.expando[elem]], s'.cache[s.expando[elem]];
            && PublicKeys(e') == (if names.None? then {} else PublicKeys(e) - Named(names.value))
            && (e'.data.Some? <==> PublicKeys(e') != {})
            && e'.events == e.events && e'.handle == e.handle && e'.others == e.others
  {
    hide FreeOk;
    LiveEntry(s, elem);
    var e := s.cache[s.expando[elem]];
    if names.Some? && e.data.Some? {
      assert Remaining(e.data.value, names.value) == e.data.value - Named(names.value);
    }
  }

  /** Removing private keys that leaves the node its id takes exactly those keys. */
  lemma {:induction false} PrivateKeysRemoved(s: Store, elem: Node, names: Option<seq<string>>)
    requires Valid(s) && elem in DataRemoved(s, elem, names, true).expando && Apart(s.cache[s.expando[elem]])
    ensures var s' := DataRemoved(s, elem, names, true);
            && names.Some? && OnlyEntry(s, elem, s')
            && var e, e' := s.cache[s.expando[elem]], s'.cache[s.expando[elem]];
            && Keys(e') == Keys(e) - Named(names.value)
            && (e'.events.Some? ==> e'.events == e.events) && (e'.data.Some? ==> e'.data == e.data)
  {
    hide FreeOk, Keys, Named, Apart, IsEmpty;
    LiveEntry(s, elem);
    if names.Some? {
      KeysDeleted(s.cache[s.expando[elem]], names.value);
    }
  }

  /** The handlers kept for one type. */
  ghost function Handlers(events: Option<map<EventType, seq<EventType>>>, list: EventType): seq<EventType> {
    if events.Some? && list in events.value then events.value[list] else []
  }

  ghost function Lists(events: Option<map<EventType, seq<EventType>>>): set<EventType> {
    if events.Some? then events.value.Keys else {}
  }

  /** Of one list the handlers bound as `t` go, and the list with the last of them; nothing else does. */
  ghost predicate TypeRemoved(events: Option<map<EventType, seq<EventType>>>, list: EventType, t: EventType,
                              left: Option<map<EventType, seq<EventType>>>) {
    && (forall l :: l != list ==> Handlers(left, l) == Handlers(events, l))
    && (exists at :: Picks(Handlers(events, list), t, Handlers(left, list), at))
    && Lists(left) == if Handlers(events, list) != [] && Handlers(left, list) == [] then Lists(events) - {list}
                      else Lists(events)
  }

  lemma {:induction false} WithoutHandlersMeans(events: map<EventType, seq<EventType>>, list: EventType, t: EventType)
    ensures TypeRemoved(Some(events), list, t, Some(WithoutHandlers(events, list, t)))
  {
    hide Without, Picks;
    var left := WithoutHandlers(events, list, t);
    var at := WithoutPicks(Handlers(Some(events), list), t);
    NothingPicked(t);
    assert Picks(Handlers(Some(events), list), t, Handlers(Some(left), list), at);
    assert list in events ==> left.Keys == events.Keys || left.Keys == events.Keys - {list};
  }

  lemma {:induction false} NothingPicked(t: EventType)
    ensures Without([], t) == []
  {
  }

  lemma {:induction false} NoHandlersLeft(events: Option<map<EventType, seq<EventType>>>, list: EventType, t: EventType)
    requires TypeRemoved(events, list, t, Some(map[]))
    ensures TypeRemoved(events, list, t, None)
  {
    assert forall l :: Handlers(None, l) == Handlers(Some(map[]), l);
  }

  /** Removing events by type that leaves the node its id: the handlers bound as that type go, the shared handle
      goes with the last list, and everything else stays. */
  lemma {:induction false} EventsRemovedMeans(s: Store, elem: Node, list: EventType, t: EventType)
    requires Valid(s) && elem in EventsRemoved(s, elem, list, t).expando
    ensures var s' := EventsRemoved(s, elem, list, t);
            && elem in s.expando && s.expando[elem] in s.cache && OnlyEntry(s, elem, s')
            && var e, e' := s.cache[s.expando[elem]], s'.cache[s.expando[elem]];
            && TypeRemoved(e.events, list, t, e'.events) && e'.data == e.data && e'.others == e.others
            && e'.handle == (e.handle && (e.events.None? || Lists(e'.events) != {}))
  {
    hide FreeOk, WithoutHandlers, Without, TypeRemoved;
    LiveEntry(s, elem);
    var e := s.cache[s.expando[elem]];
    if e.events.Some? {
      WithoutHandlersMeans(e.events.value, list, t);
      var left := WithoutHandlers(e.events.value, list, t);
      if left == map[] {
        NoHandlersLeft(e.events, list, t);
      } else {
        assert left.Keys != {};
      }
    } else {
      NothingToRemove(list, t);
    }
  }

  lemma {:induction false} NothingToRemove(list: EventType, t: EventType)
    ensures TypeRemoved(None, list, t, None)
  {
    var at: seq<nat> := [];
    assert Picks(Handlers(None, list), t, Handlers(None, list), at);
  }

  /** And it loses the id exactly when no list, key or public data is left. */
  lemma {:induction false} EventsRemovedFrees(s: Store, elem: Node, list: EventType, t: EventType)
    requires Valid(s) && elem in s.expando && s.cache[s.expando[elem]].events.Some?
    ensures var e := s.cache[s.expando[elem]];
            elem !in EventsRemoved(s, elem, list, t).expando <==>
            && e.others == {} && PublicKeys(e) == {}
            && forall l :: l in e.events.value ==>
                 && l == list && e.events.value[l] != []
                 && forall i :: 0 <= i < |e.events.value[l]| ==> e.events.value[l][i] == t
  {
    hide FreeOk, WithoutHandlers, Without;
    LiveEntry(s, elem);
    var e := s.cache[s.expando[elem]];
    var events, left := e.events.value, WithoutHandlers(e.events.value, list, t);
    WithoutHandlersMeans(events, list, t);
    var at :| Picks(Handlers(e.events, list), t, Handlers(Some(left), list), at);
    if left == map[] {
      assert Lists(Some(left)) == {};
      forall l | l in events ensures l == list && events[l] != [] {
        assert l !in Lists(Some(left)) && l in Lists(e.events);
      }
      assert forall i :: 0 <= i < |Handlers(e.events, list)| ==> i !in at;
    } else {
      var l :| l in left;
      assert l in Lists(Some(left)) && l in events;
      if l == list && events[l] != [] {
        assert Handlers(Some(left), list) != [];
        assert events[l][at[0]] != t;
      }
    }
  }

  lemma {:induction false} EmptyMeans(e: Entry)
    requires Apart(e)
    ensures IsEmpty(e) <==> Keys(e) <= {"data"} && (e.data.None? || e.data.value == {})
  {
    assert e.others <= Keys(e);
    assert e.others <= {"data"} ==> e.others == {};
    assert e.events.Some? ==> "events" in Keys(e);
    assert e.handle ==> "handle" in Keys(e);
  }

  lemma {:induction false} DataRemovedCases(s: Store, elem: Node, names: Option<seq<string>>, pvt: bool)
    requires Valid(s)
    ensures Valid(DataRemoved(s, elem, names, pvt))
    ensures DataRemoved(s, elem, names, pvt) == Free(s, elem)
         || exists e :: DataRemoved(s, elem, names, pvt) == Update(s, elem, e)
  {
    hide LiveOk, FreeOk, Kept, Discards;
    if elem in s.expando {
      LiveEntry(s, elem);
      UpdateValid(s, elem, Kept(s.cache[s.expando[elem]], names, pvt));
      FreeValid(s, elem);
    }
  }

  /** The ids ever handed out: one for each node with data, and the free ones. */
  ghost function Issued(s: Store): nat {
    |s.expando| + |s.deletedIds|
  }

  lemma {:induction false} FreeIssued(s: Store, elem: Node)
    ensures Issued(Free(s, elem)) == Issued(s) && |Free(s, elem).expando| <= |s.expando|
  {
    if elem in s.expando {
      assert (s.expando - {elem}).Keys == s.expando.Keys - {elem};
    }
  }

  lemma {:induction false} AllFreedIssued(s: Store, elems: seq<Node>)
    ensures Issued(AllFreed(s, elems)) == Issued(s) && |AllFreed(s, elems).expando| <= |s.expando|
  {
    if elems != [] {
      AllFreedIssued(s, elems[..|elems| - 1]);
      FreeIssued(AllFreed(s, elems[..|elems| - 1]), elems[|elems| - 1]);
    }
  }

  lemma {:induction false} NewKeySize(m: map<Node, Id>, elem: Node, id: Id)
    requires elem !in m
    ensures |m[elem := id]| == |m| + 1
  {
    assert m[elem := id].Keys == m.Keys + {elem};
  }

  lemma {:induction false} AllocateIssued(s: Store, elem: Node)
    ensures Issued(Allocate(s, elem)) == Max(Issued(s), |Allocate(s, elem).expando|)
  {
    if elem !in s.expando {
      NewKeySize(s.expando, elem, if s.deletedIds != [] then s.deletedIds[|s.deletedIds| - 1] else s.guid);
    }
  }

  lemma {:induction false} DoIssued(s: Store, op: Op)
    requires Valid(s)
    ensures Issued(Do(s, op)) == Max(Issued(s), |Do(s, op).expando|)
  {
    hide LiveOk, FreeOk, EventsRemoved, DataRemoved, AllFreed, Allocate, Free;
    match op
    case Write(elem, e) => AllocateIssued(s, elem);
    case RemoveEvents(elem, list, t) =>
      EventsRemovedCases(s, elem, list, t);
      FreeIssued(s, elem);
    case RemoveData(elem, names, pvt) =>
      DataRemovedCases(s, elem, names, pvt);
      FreeIssued(s, elem);
    case Clean(elems) => AllFreedIssued(s, elems);
    case DrawGuid =>
  }

  /** No id is lost and none is given out needlessly: however nodes come and go, exactly as many ids were ever
      handed out as nodes had data at the busiest moment. */
  lemma {:induction false} IssuedIsPeak(ops: seq<Op>)
    ensures Issued(After(ops)) == Peak(ops)
  {
    hide Valid, Do, Issued;
    if ops == [] {
      StartIssued();
    } else {
      var last := |ops| - 1;
      IssuedIsPeak(ops[..last]);
      DoIssued(After(ops[..last]), ops[last]);
    }
  }

  /** The draws from jQuery.guid for something other than an id. */
  ghost function Draws(ops: seq<Op>): nat {
    if ops == [] then 0 else Draws(ops[..|ops| - 1]) + if ops[|ops| - 1].DrawGuid? then 1 else 0
  }

  lemma {:induction false} AllFreedGuid(s: Store, elems: seq<Node>)
    ensures AllFreed(s, elems).guid == s.guid
  {
    if elems != [] {
      AllFreedGuid(s, elems[..|elems| - 1]);
    }
  }

  lemma {:induction false} AllocateGuid(s: Store, elem: Node)
    ensures Allocate(s, elem).guid - s.guid == Issued(Allocate(s, elem)) - Issued(s)
  {
    if elem !in s.expando {
      NewKeySize(s.expando, elem, if s.deletedIds != [] then s.deletedIds[|s.deletedIds| - 1] else s.guid);
    }
  }

  lemma {:induction false} DoGuid(s: Store, op: Op)
    requires Valid(s)
    ensures Do(s, op).guid - s.guid == Issued(Do(s, op)) - Issued(s) + if op.DrawGuid? then 1 else 0
  {
    hide LiveOk, FreeOk, EventsRemoved, DataRemoved, AllFreed, Allocate;
    match op
    case Write(elem, e) => AllocateGuid(s, elem);
    case RemoveEvents(elem, list, t) =>
      EventsRemovedCases(s, elem, list, t);
      FreeIssued(s, elem);
    case RemoveData(elem, names, pvt) =>
      DataRemovedCases(s, elem, names, pvt);
      FreeIssued(s, elem);
    case Clean(elems) =>
      AllFreedIssued(s, elems);
      AllFreedGuid(s, elems);
    case DrawGuid =>
  }

  /** Ids are drawn from the counter and from nowhere else: it has moved once for every id there is, live or free,
      and once for every other draw. */
  lemma {:induction false} CounterAccounts(ops: seq<Op>)
    ensures After(ops).guid == 1 + Issued(After(ops)) + Draws(ops)
  {
    hide Valid, Do, Issued;
    if ops == [] {
      StartIssued();
    } else {
      CounterAccounts(ops[..|ops| - 1]);
      DoGuid(After(ops[..|ops| - 1]), ops[|ops| - 1]);
    }
  }

  lemma {:induction false} StartIssued()
    ensures Issued(START) == 0
  {
  }

  // ----- cleanData of a list -----

  ghost predicate Held(s: Store, elems: seq<Node>, id: Id) {
    exists n :: n in elems && n in s.expando && s.expando[n] == id
  }

  /** Only the listed nodes lost their data, the others kept theirs under the same id. */
  ghost predicate OthersKept(s: Store, elems: seq<Node>, s': Store) {
    && (forall n :: n in s'.expando <==> n in s.expando && n !in elems)
    && (forall n :: n in s'.expando ==> SameData(s, s', n))
  }

  ghost predicate SameData(s: Store, s': Store, n: Node) {
    && n in s.expando && n in s'.expando && s'.expando[n] == s.expando[n]
    && s.expando[n] in s.cache && s.expando[n] in s'.cache && s'.cache[s.expando[n]] == s.cache[s.expando[n]]
  }

  /** The ids that became free are the ones the listed nodes had. */
  ghost predicate HeldFreed(s: Store, elems: seq<Node>, s': Store) {
    forall id :: id in s'.deletedIds <==> id in s.deletedIds || Held(s, elems, id)
  }

  lemma {:induction false} CleanFrees(s: Store, elems: seq<Node>)
    requires Valid(s)
    ensures OthersKept(s, elems, AllFreed(s, elems)) && HeldFreed(s, elems, AllFreed(s, elems))
  {
    hide Valid, OthersKept, HeldFreed;
    if elems == [] {
      NoneCleaned(s);
    } else {
      var last := |elems| - 1;
      CleanFrees(s, elems[..last]);
      AllFreedValid(s, elems[..last]);
      OneMoreKept(s, elems[..last], AllFreed(s, elems[..last]), elems[last]);
      OneMoreFreed(s, elems[..last], AllFreed(s, elems[..last]), elems[last]);
      assert elems == elems[..last] + [elems[last]];
    }
  }

  lemma {:induction false} NoneCleaned(s: Store)
    requires Valid(s)
    ensures OthersKept(s, [], s) && HeldFreed(s, [], s)
  {
  }

  lemma {:induction false} OneMoreKept(s: Store, elems: seq<Node>, s': Store, elem: Node)
    requires Valid(s') && OthersKept(s, elems, s')
    ensures OthersKept(s, elems + [elem], Free(s', elem))
  {
    hide Valid, SameData;
    var t := Free(s', elem);
    forall n | n in t.expando ensures SameData(s, t, n) {
      assert SameData(s, s', n);
      FreeKeepsOther(s, s', elem, n);
    }
    forall n ensures n in t.expando <==> n in s.expando && n !in elems + [elem] {
      assert n in t.expando <==> n in s'.expando && n != elem;
    }
  }

  lemma {:induction false} FreeKeepsOther(s: Store, s': Store, elem: Node, n: Node)
    requires Valid(s') && SameData(s, s', n) && n != elem
    ensures SameData(s, Free(s', elem), n)
  {
    hide FreeOk, Owned;
  }

  lemma {:induction false} OneMoreFreed(s: Store, elems: seq<Node>, s': Store, elem: Node)
    requires Valid(s') && OthersKept(s, elems, s') && HeldFreed(s, elems, s')
    ensures HeldFreed(s, elems + [elem], Free(s', elem))
  {
    hide Valid;
    var t := Free(s', elem);
    forall id ensures id in t.deletedIds <==> id in s.deletedIds || Held(s, elems + [elem], id) {
      OneMoreHeld(s, elems, elem, id);
      assert elem in s.expando ==> elem in s'.expando || elem in elems;
    }
  }

  lemma {:induction false} OneMoreHeld(s: Store, elems: seq<Node>, elem: Node, id: Id)
    ensures Held(s, elems + [elem], id) <==> Held(s, elems, id) || (elem in s.expando && s.expando[elem] == id)
  {
    if Held(s, elems, id) {
      var n :| n in elems && n in s.expando && s.expando[n] == id;
      assert n in elems + [elem];
    }
    assert elem in elems + [elem];
  }

  class DataCache {
    /** jQuery.event.special: the type whose list a special type is kept in. */
    const special: map<EventType, EventType>
    var expando: map<Node, Id>
    var cache: map<Id, Entry>
    var deletedIds: seq<Id>
    var guid: Id

    ghost function View(): Store
      reads this
    {
      Store(expando, cache, deletedIds, guid)
    }

    constructor (special: map<EventType, EventType>)
      ensures View() == Store(map[], map[], [], 1) && this.special == special
    {
      this.special := special;
      expando, cache, deletedIds, guid := map[], map[], [], 1;
    }

    function ListOf(t: EventType): EventType {
      if t in special then special[t] else t
    }

    /** The part of internalData that creates an entry. */
    method EnsureEntry(elem: Node)
      requires LiveOk(View())
      modifies this
      ensures View() == Allocate(old(View()), elem)
    {
      if elem !in expando {
        var id;
        if deletedIds != [] {
          id := deletedIds[|deletedIds| - 1];
          deletedIds := deletedIds[..|deletedIds| - 1];
        } else {
          id := guid;
          guid := guid + 1;
        }
        expando := expando[elem := id];
        cache := cache[id := EMPTY];
      }
    }

    method Put(elem: Node, e: Entry)
      requires LiveOk(View()) && elem in expando
      modifies this`cache
      ensures LiveOk(View()) && View() == Update(old(View()), elem, e)
    {
      hide LiveOk;
      UpdateLive(View(), elem, e);
      cache := cache[expando[elem] := e];
    }

    method CleanOne(elem: Node, ghost rank: nat)
      requires LiveOk(View())
      requires elem in expando && cache[expando[elem]].events.Some? ==> rank > 0
      modifies this
      ensures LiveOk(View()) && View() == Free(old(View()), elem)
      decreases rank, 2
    {
      hide LiveOk, EventsRemoved;
      if elem !in expando {
        return;
      }
      ghost var s := View();
      var id := expando[elem];
      LiveEntry(s, elem);
      UpdateSame(s, elem);
      var data := cache[id];
      if data.events.Some? {
        var types := data.events.value.Keys;
        while types != {}
          invariant LiveOk(View())
          invariant elem in expando ==> id in cache && View() == Update(s, elem, cache[id])
          invariant elem !in expando ==> View() == Free(s, elem)
          decreases types
        {
          var t :| t in types;
          types := types - {t};
          // A list deleted on the way is not visited; once the entry is gone none is left.
          if elem in expando && cache[id].events.Some? && t in cache[id].events.value && t in special {
            EventRemovedOrFreed(s, elem, cache[id], ListOf(t), t);
            EventRemove(elem, t, rank);
          }
        }
      }
      if id in cache {
        FreeUpdated(s, elem, cache[id]);
        FreeLive(View(), elem);
        cache := cache - {id};
        expando := expando - {elem};
        deletedIds := deletedIds + [id];
      }
    }

    /** jQuery.event.remove( elem, t ) */
    method EventRemove(elem: Node, t: EventType, ghost rank: nat)
      requires LiveOk(View()) && rank > 0
      modifies this
      ensures LiveOk(View()) && View() == EventsRemoved(old(View()), elem, ListOf(t), t)
      decreases rank, 1
    {
      hide LiveOk, WithoutHandlers, IsEmpty, DataRemoved;
      ghost var s := View();
      if elem in expando {
        LiveEntry(s, elem);
        EmptyHasNoEvents(s, elem);
      }
      if elem !in expando || IsEmpty(cache[expando[elem]]) || cache[expando[elem]].events.None? {
        return;
      }
      var e := cache[expando[elem]];
      var events := RemoveFrom(e.events.value, ListOf(t), t);
      e := e.(events := Some(events));
      Put(elem, e);
      if events == map[] {
        UpdateTwice(s, elem, e, e.(handle := false));
        LastEventRemoved(s, elem, e);
        Put(elem, e.(handle := false));
        InternalRemoveData(elem, Some(["events"]), true, rank - 1);
      }
    }

    /** internalRemoveData, for the keys a name stands for */
    method InternalRemoveData(elem: Node, names: Option<seq<string>>, pvt: bool, ghost rank: nat)
      requires LiveOk(View()) && (rank > 0 || (pvt && names == Some(["events"])))
      modifies this
      ensures LiveOk(View()) && View() == DataRemoved(old(View()), elem, names, pvt)
      decreases rank, 3
    {
      hide LiveOk, DeleteKeys, Remaining;
      ghost var s := View();
      if elem !in expando {
        return;
      }
      LiveEntry(s, elem);
      UpdateSame(s, elem);
      var e := cache[expando[elem]];
      if names.Some? && (pvt || e.data.Some?) {
        if pvt {
          e := DeleteEach(e, names.value);
          Put(elem, e);
          if !IsEmpty(e) {
            return;
          }
        } else {
          e := e.(data := Some(Remaining(e.data.value, names.value)));
          Put(elem, e);
          if e.data.value != {} {
            return;
          }
        }
      }
      if !pvt {
        UpdateTwice(s, elem, e, e.(data := None));
        e := e.(data := None);
        Put(elem, e);
        if !IsEmpty(e) {
          return;
        }
      }
      FreeUpdated(s, elem, e);
      CleanOne(elem, rank);
    }

    /** cleanData */
    method CleanData(elems: seq<Node>)
      requires LiveOk(View())
      modifies this
      ensures LiveOk(View()) && View() == AllFreed(old(View()), elems)
    {
      hide LiveOk, Free;
      for i := 0 to |elems|
        invariant LiveOk(View()) && View() == AllFreed(old(View()), elems[..i])
      {
        assert elems[..i + 1][..i] == elems[..i];
        CleanOne(elems[i], 1);
      }
      assert elems[..|elems|] == elems;
    }

    /** Any write of data or events: internalData creates the entry when it is missing. */
    method Write(elem: Node, e: Entry)
      requires Valid(View())
      modifies this
      ensures View() == Update(Allocate(old(View()), elem), elem, e)
    {
      hide Valid, LiveOk;
      ghost var s := View();
      AllocateValid(s, elem);
      ValidIsLive(s);
      EnsureEntry(elem);
      ValidIsLive(View());
      Put(elem, e);
    }
  }

  lemma {:induction false} ValidIsLive(s: Store)
    requires Valid(s)
    ensures LiveOk(s)
  {
  }

  /** The loop over the handlers of one list, last first, and the removal of an emptied list. */
  method RemoveFrom(events: map<EventType, seq<EventType>>, list: EventType, t: EventType)
      returns (left: map<EventType, seq<EventType>>)
    ensures left == WithoutHandlers(events, list, t)
  {
    left := events;
    if list in events && events[list] != [] {
      var handlers := RemoveHandlers(events[list], t);
      if handlers == [] {
        left := events - {list};
      } else {
        left := events[list := handlers];
      }
    }
  }

  method RemoveHandlers(handlers: seq<EventType>, t: EventType) returns (kept: seq<EventType>)
    ensures kept == Without(handlers, t)
  {
    kept := handlers;
    var j := |handlers|;
    assert handlers[..j] == handlers;
    while j > 0
      invariant 0 <= j <= |handlers| && j <= |kept| && kept[..j] == handlers[..j]
      invariant Without(handlers, t) == Without(handlers[..j], t) + kept[j..]
    {
      j := j - 1;
      assert handlers[..j + 1][..j] == handlers[..j];
      if handlers[j] == t {
        kept := kept[..j] + kept[j + 1..];
      }
    }
  }

  method DeleteEach(e: Entry, keys: seq<string>) returns (r: Entry)
    ensures r == DeleteKeys(e, keys)
  {
    r := e;
    for i := 0 to |keys|
      invariant r == DeleteKeys(e, keys[..i])
    {
      assert keys[..i + 1][..i] == keys[..i];
      r := DeleteKey(r, keys[i]);
    }
    assert keys[..|keys|] == keys;
  }
}
