/** The mutable `Trie` objects of Source/JavaScriptCore/KeywordLookupGenerator.py. Each method is
    proved to update the heap structure as the function of the same name updates its value. */
module KeywordTrieNode {
  import opened Common
  import L = KeywordLookup
  import T = KeywordTrie

  class TrieNode {
    var prefix: T.Word
    var keys: seq<TrieNode>
    var value: Option<T.Token>
    var fullPrefix: T.Word
    var weight: real
    ghost var Repr: set<object>
    /** The trie this object stands for. */
    ghost var model: T.Trie

    ghost predicate Valid()
      reads this, Repr
      decreases Repr
    {
      && this in Repr
      && (forall i :: 0 <= i < |keys| ==>
            keys[i] in Repr && keys[i].Repr <= Repr && this !in keys[i].Repr && keys[i].Valid())
      && (forall i, j :: 0 <= i < j < |keys| ==> keys[i].Repr !! keys[j].Repr)
      && model.prefix == prefix && model.value == value
      && model.fullPrefix == fullPrefix && model.weight == weight
      && |model.keys| == |keys| && (forall i :: 0 <= i < |keys| ==> model.keys[i] == keys[i].model)
    }

    /** Valid nodes within a region that do not share anything. */
    static ghost predicate Forest(nodes: seq<TrieNode>, space: set<object>)
      reads space
    {
      && (forall j :: 0 <= j < |nodes| ==> nodes[j] in space && nodes[j].Repr <= space && nodes[j].Valid())
      && (forall j, k :: 0 <= j < k < |nodes| ==> nodes[j].Repr !! nodes[k].Repr)
    }

    /** The nodes stand for the given tries. */
    static ghost predicate Stands(nodes: seq<TrieNode>, models: seq<T.Trie>)
      reads nodes
    {
      |nodes| == |models| && forall j :: 0 <= j < |nodes| ==> nodes[j].model == models[j]
    }

    constructor (prefix: T.Word)
      ensures Valid() && fresh(Repr) && Repr == {this}
      ensures model == T.NewTrie(prefix)
    {
      this.prefix := prefix;
      keys, value, fullPrefix, weight := [], None, [], 0.0;
      Repr := {this};
      model := T.NewTrie(prefix);
    }

    /** `key[0] in self.keys` */
    method FindKey(c: nat) returns (i: nat)
      requires Valid()
      ensures i == T.Branch(model.keys, c)
    {
      i := 0;
      while i < |keys| && !(keys[i].prefix != [] && keys[i].prefix[0] == c)
        invariant 0 <= i <= |keys|
        invariant forall j :: 0 <= j < i ==> T.Head(model.keys[j]) != c
      {
        assert keys[i].Valid();
        i := i + 1;
      }
      assert i < |keys| ==> keys[i].Valid();
    }

    method Insert(key: T.Word, v: T.Token)
      requires Valid()
      modifies Repr
      ensures Valid() && fresh(Repr - old(Repr))
      ensures model == T.Insert(old(model), key, v)
      decreases |key|, 1
    {
      hide T.Branch;
      if key == [] {
        value := Some(v);
        model := model.(value := Some(v));
      } else {
        var i := FindKey(key[0]);
        if i == |keys| {
          AddKey(key[0]);
        }
        InsertBelow(i, key, v);
      }
    }

    /** `self.keys[c] = Trie(c)` for a new key */
    method AddKey(c: T.Letter)
      requires Valid()
      modifies this
      ensures Valid() && fresh(Repr - old(Repr)) && |keys| == old(|keys|) + 1
      ensures model == old(model).(keys := old(model).keys + [T.NewTrie([c])])
    {
      var node := new TrieNode([c]);
      keys := keys + [node];
      Repr := Repr + node.Repr;
      model := model.(keys := model.keys + [node.model]);
    }

    method InsertBelow(i: nat, key: T.Word, v: T.Token)
      requires Valid() && i < |keys| && key != []
      modifies Repr
      ensures Valid() && fresh(Repr - old(Repr))
      ensures model == old(model).(keys := old(model).keys[i := T.Insert(old(model).keys[i], key[1..], v)])
      decreases |key|, 0
    {
      hide T.Insert;
      var child := keys[i];
      child.Insert(key[1..], v);
      forall j | 0 <= j < |keys| && j != i
        ensures keys[j].Valid() && keys[j].Repr == old(keys[j].Repr) && keys[j].model == old(keys[j].model)
      {
        assert old(keys[j].Valid()) && old(keys[j].Repr) !! old(child.Repr);
      }
      Repr := Repr + child.Repr;
      model := model.(keys := model.keys[i := child.model]);
    }

    /** Replaces the children by nodes that do not share anything. */
    method Adopt(kids: seq<TrieNode>, ghost models: seq<T.Trie>, ghost space: set<object>)
      requires model.prefix == prefix && model.value == value
      requires model.fullPrefix == fullPrefix && model.weight == weight
      requires Forest(kids, space) && this !in space && Stands(kids, models)
      modifies this`keys, this`Repr, this`model
      ensures Valid() && keys == kids && Repr == {this} + space
      ensures model == old(model).(keys := models)
    {
      keys := kids;
      Repr := {this} + space;
      model := model.(keys := models);
      assert Forest(kids, space) && Stands(kids, models);
    }

    static method CoalesceSlot(nodes: seq<TrieNode>, i: nat, ghost space: set<object>)
      returns (r: seq<TrieNode>, ghost wider: set<object>)
      requires i < |nodes| && Forest(nodes, space)
      modifies nodes[i].Repr
      ensures |r| == |nodes| && r == nodes[i := r[i]] && Forest(r, wider)
      ensures space <= wider && fresh(wider - space)
      ensures r[i].model == T.Coalesce(old(nodes[i].model))
      ensures forall j :: 0 <= j < |nodes| && j != i ==>
                nodes[j].model == old(nodes[j].model) && nodes[j].Repr == old(nodes[j].Repr)
      decreases nodes[i].Repr, 2
    {
      hide T.Coalesce, T.CoalesceAll;
      ghost var spot := nodes[i].Repr;
      forall j | 0 <= j < |nodes| && j != i ensures nodes[j].Repr !! spot { }
      var t := nodes[i].Coalesce();
      r, wider := nodes[i := t], space + t.Repr;
      assert t in t.Repr;
    }

    /** Compresses the children; the node itself stays. */
    method CoalesceKeys()
      requires Valid()
      modifies Repr
      ensures Valid() && fresh(Repr - old(Repr))
      ensures model == T.CoalesceRoot(old(model))
      decreases Repr, 0
    {
      hide T.Coalesce, T.CoalesceAll;
      var nodes := keys;
      ghost var models, space := model.keys, Repr - {this};
      for i := 0 to |nodes|
        invariant unchanged(this) && |nodes| == |models|
        invariant Forest(nodes, space) && this !in space && fresh(space - old(Repr))
        invariant forall j :: i <= j < |nodes| ==> nodes[j].Repr <= old(Repr) && nodes[j].model == models[j]
        invariant forall j :: 0 <= j < i ==> nodes[j].model == T.Coalesce(models[j])
      {
        nodes, space := CoalesceSlot(nodes, i, space);
      }
      Adopt(nodes, T.CoalesceAll(models), space);
    }

    method Coalesce() returns (r: TrieNode)
      requires Valid()
      modifies Repr
      ensures Valid() && fresh(Repr - old(Repr))
      ensures model == T.CoalesceRoot(old(model))
      ensures r.Valid() && fresh(r.Repr - old(Repr))
      ensures r.model == T.Coalesce(old(model))
      decreases Repr, 1
    {
      CoalesceKeys();
      if value.Some? || |keys| != 1 {
        return this;
      }
      r := Merge();
    }

    /** A node for the two edges of a node and its only child. */
    method Merge() returns (r: TrieNode)
      requires Valid() && |keys| == 1
      ensures r.Valid() && fresh(r.Repr - Repr)
      ensures r.model == T.Trie(prefix + keys[0].prefix, model.keys[0].keys, model.keys[0].value, [], 0.0)
    {
      var suffix := keys[0];
      assert suffix.Valid();
      r := new TrieNode(prefix + suffix.prefix);
      r.value := suffix.value;
      r.model := r.model.(value := suffix.value);
      r.Adopt(suffix.keys, suffix.model.keys, suffix.Repr);
    }

    static method FillOutSlot(nodes: seq<TrieNode>, i: nat, full: T.Word, weights: map<T.Word, real>,
                              ghost space: set<object>)
      returns (w: real, ghost wider: set<object>)
      requires i < |nodes| && Forest(nodes, space)
      modifies nodes[i].Repr
      ensures Forest(nodes, wider) && space <= wider && fresh(wider - space)
      ensures nodes[i].model == T.FillOut(old(nodes[i].model), full, weights) && w == nodes[i].model.weight
      ensures forall j :: 0 <= j < |nodes| && j != i ==>
                nodes[j].model == old(nodes[j].model) && nodes[j].Repr == old(nodes[j].Repr)
      decreases nodes[i].Repr, 2
    {
      hide T.FillOut, T.FillOutAll;
      ghost var spot := nodes[i].Repr;
      forall j | 0 <= j < |nodes| && j != i ensures nodes[j].Repr !! spot { }
      nodes[i].FillOut(full, weights);
      w, wider := nodes[i].weight, space + nodes[i].Repr;
    }

    /** `sorted(..., reverse=True)`: a stable sort, heaviest first */
    static method SortNodes(nodes: seq<TrieNode>, ghost models: seq<T.Trie>, ghost space: set<object>)
      returns (sorted: seq<TrieNode>)
      requires Forest(nodes, space) && |models| == |nodes|
      requires forall j :: 0 <= j < |nodes| ==> nodes[j].model == models[j]
      ensures Forest(sorted, space) && Stands(sorted, T.SortByWeight(models))
    {
      hide TrieNode.Valid, T.Place;
      sorted := [];
      for i := 0 to |nodes|
        invariant Forest(sorted, space) && Stands(sorted, T.SortByWeight(models[..i]))
        invariant forall j, k :: 0 <= j < |sorted| && i <= k < |nodes| ==> sorted[j].Repr !! nodes[k].Repr
      {
        assert models[..i + 1][..i] == models[..i];
        var k := PlaceNode(sorted, T.SortByWeight(models[..i]), nodes[i], space);
        SpliceForest(sorted, k, nodes[i], space);
        SpliceStands(sorted, T.SortByWeight(models[..i]), k, nodes[i]);
        sorted := T.Splice(sorted, k, nodes[i]);
      }
      assert models[..|nodes|] == models;
    }

    static lemma SpliceForest(nodes: seq<TrieNode>, k: nat, node: TrieNode, space: set<object>)
      requires Forest(nodes, space) && k <= |nodes|
      requires node in space && node.Repr <= space && node.Valid()
      requires forall j :: 0 <= j < |nodes| ==> nodes[j].Repr !! node.Repr
      ensures Forest(T.Splice(nodes, k, node), space)
    {
    }

    static lemma SpliceStands(nodes: seq<TrieNode>, models: seq<T.Trie>, k: nat, node: TrieNode)
      requires Stands(nodes, models) && k <= |nodes|
      ensures Stands(T.Splice(nodes, k, node), T.Splice(models, k, node.model))
    {
    }

    static method PlaceNode(sorted: seq<TrieNode>, ghost models: seq<T.Trie>, node: TrieNode, ghost space: set<object>)
      returns (k: nat)
      requires Forest(sorted, space) && Stands(sorted, models) && node.Valid()
      ensures k == T.Place(models, node.model.weight)
    {
      k := |sorted|;
      while k > 0 && sorted[k - 1].weight < node.weight
        invariant 0 <= k <= |sorted|
        invariant forall j :: k <= j < |sorted| ==> models[j].weight < node.model.weight
      {
        assert sorted[k - 1].Valid();
        k := k - 1;
      }
      assert k > 0 ==> sorted[k - 1].Valid();
    }

    /** Sets full prefixes and weights below this node and sorts its children. */
    method FillOut(prefix: T.Word, weights: map<T.Word, real>)
      requires Valid()
      modifies Repr
      ensures Valid() && fresh(Repr - old(Repr))
      ensures model == T.FillOut(old(model), prefix, weights)
      decreases Repr, 1
    {
      hide T.FillOutAll, T.SortByWeight, T.TotalWeight;
      var full := prefix + this.prefix;
      var own := if full in weights then weights[full] else 0.0;
      ghost var kids := T.FillOutAll(model.keys, full, weights);
      ghost var space;
      var total;
      total, space := FillOutKeys(full, weights, kids);
      var sorted := SortNodes(keys, kids, space);
      fullPrefix, weight := full, own + total;
      model := model.(fullPrefix := full, weight := own + total);
      assert Forest(sorted, space);
      Adopt(sorted, T.SortByWeight(kids), space);
    }

    method FillOutKeys(full: T.Word, weights: map<T.Word, real>, ghost kids: seq<T.Trie>)
      returns (total: real, ghost space: set<object>)
      requires Valid()
      requires kids == T.FillOutAll(model.keys, full, weights)
      modifies Repr - {this}
      ensures Forest(keys, space) && this !in space && fresh(space - old(Repr))
      ensures Stands(keys, kids)
      ensures total == T.TotalWeight(kids)
      decreases Repr, 0
    {
      hide T.FillOut, T.FillOutAll;
      total, space := 0.0, Repr - {this};
      ghost var models := model.keys;
      for i := 0 to |keys|
        invariant unchanged(this)
        invariant Forest(keys, space) && this !in space && fresh(space - old(Repr))
        invariant forall j :: i <= j < |keys| ==> keys[j].Repr <= old(Repr) - {this} && keys[j].model == models[j]
        invariant forall j :: 0 <= j < i ==> keys[j].model == kids[j]
        invariant total == T.TotalWeight(kids[..i])
      {
        var w;
        w, space := FillOutSlot(keys, i, full, weights, space);
        assert kids[..i + 1][..i] == kids[..i];
        total := total + w;
      }
      assert kids[..|keys|] == kids;
    }
  }

  /** The whole construction: insert every entry, compress below the root, fill out. */
  method BuildTrie(entries: seq<L.Entry>, weights: map<T.Word, real>) returns (root: TrieNode)
    ensures root.Valid() && root.model == L.Finished(entries, weights)
  {
    root := new TrieNode([]);
    for i := 0 to |entries|
      invariant root.Valid() && fresh(root.Repr)
      invariant root.model == L.InsertAll(entries[..i])
    {
      assert entries[..i + 1][..i] == entries[..i];
      root.Insert(entries[i].0, entries[i].1);
    }
    assert entries[..|entries|] == entries;
    var _ := root.Coalesce();
    root.FillOut([], weights);
  }
}
