/**
 The in-place update of nested dicts behind ConfigLoader (src/blueapi/config.py).  A shape records which dict object
 holds which entries; it is used to say that layers share no dict, and to follow the objects through the update.
 */
module ConfigLoader {
  import opened ConfigMerge

  class DictNode {
    var entries: map<Key, Item>

    constructor ()
      ensures entries == map[]
    {
      entries := map[];
    }
  }

  datatype Item = Scalar(text: string) | Nested(node: DictNode)

  datatype Shape = Flat(text: string) | Node(self: DictNode, children: map<Key, Shape>)

  /** The dict objects of a shape. */
  ghost function Foot(s: Shape): set<DictNode> {
    match s
    case Flat(_) => {}
    case Node(self, children) => {self} + set k, x | k in children && x in Foot(children[k]) :: x
  }

  /** No dict object occurs twice. */
  ghost predicate Separate(s: Shape) {
    s.Node? ==>
      && (forall k :: k in s.children ==> Separate(s.children[k]) && s.self !in Foot(s.children[k]))
      && (forall k, l :: k in s.children && l in s.children && k != l ==> Foot(s.children[k]) !! Foot(s.children[l]))
  }

  /** The dict objects of several shapes. */
  ghost function FootAll(shapes: map<Key, Shape>): set<DictNode> {
    set k, x | k in shapes && x in Foot(shapes[k]) :: x
  }

  /** The objects hold exactly what the shape says. */
  ghost predicate Has(item: Item, s: Shape)
    reads Foot(s)
    decreases s, 0
  {
    match s
    case Flat(text) => item == Scalar(text)
    case Node(self, children) =>
      && item == Nested(self) && self.entries.Keys == children.Keys
      && forall k :: k in children ==> Has(self.entries[k], children[k])
  }

  ghost predicate HasAll(entries: map<Key, Item>, shapes: map<Key, Shape>)
    reads FootAll(shapes)
  {
    entries.Keys == shapes.Keys && forall k :: k in shapes ==> Has(entries[k], shapes[k])
  }

  /** The nested mapping a shape stands for. */
  ghost function Contents(s: Shape): Value {
    match s
    case Flat(text) => Leaf(text)
    case Node(_, children) => Dict(map k | k in children :: Contents(children[k]))
  }

  /** Dicts of the lower layer stay in use; whatever else the upper layer holds replaces it. */
  ghost function MergeShape(below: Shape, above: Shape): Shape
    decreases above
  {
    if below.Flat? || above.Flat? then above
    else Node(below.self, map k | k in below.children.Keys + above.children.Keys :: MergeAt(below, above, k))
  }

  ghost function MergeAt(below: Shape, above: Shape, k: Key): Shape
    requires below.Node? && above.Node? && (k in below.children || k in above.children)
    decreases above, 0
  {
    if k !in above.children then below.children[k]
    else if k !in below.children then above.children[k]
    else MergeShape(below.children[k], above.children[k])
  }

  lemma {:induction false} ContentsOfMerge(below: Shape, above: Shape)
    ensures Contents(MergeShape(below, above)) == Merge(Contents(below), Contents(above))
    decreases above
  {
    if below.Node? && above.Node? {
      forall k | k in below.children && k in above.children
        ensures Contents(MergeAt(below, above, k)) == Merge(Contents(below.children[k]), Contents(above.children[k]))
      {
        ContentsOfMerge(below.children[k], above.children[k]);
      }
    }
  }

  lemma {:induction false} FootOfMerge(below: Shape, above: Shape)
    ensures Foot(MergeShape(below, above)) <= Foot(below) + Foot(above)
    decreases above
  {
    if below.Node? && above.Node? {
      forall k | k in below.children && k in above.children
        ensures Foot(MergeAt(below, above, k)) <= Foot(below.children[k]) + Foot(above.children[k])
      {
        FootOfMerge(below.children[k], above.children[k]);
      }
    }
  }

  lemma ChildInFoot(s: Shape, k: Key)
    requires s.Node? && k in s.children
    ensures Foot(s.children[k]) <= Foot(s) && s.self in Foot(s)
  {
  }

  lemma {:induction false} FootAllocated(s: Shape)
    ensures forall x :: x in Foot(s) ==> allocated(x)
  {
    if s.Node? {
      forall k | k in s.children ensures forall x :: x in Foot(s.children[k]) ==> allocated(x) {
        FootAllocated(s.children[k]);
      }
    }
  }

  // ---------- the update ----------

  /** The shapes under a dict while some keys are still to be handled. */
  ghost predicate Underway(shapes: map<Key, Shape>, below: Shape, above: Shape, keys: set<Key>)
    requires below.Node? && above.Node?
  {
    && keys <= above.children.Keys
    && shapes.Keys == below.children.Keys + (above.children.Keys - keys)
    && forall k :: k in shapes ==>
         shapes[k] == if k in above.children && k !in keys then MergeAt(below, above, k) else below.children[k]
  }

  /** Neither the dict itself nor the dicts under an unhandled key occur under another key. */
  lemma UnderwayApart(shapes: map<Key, Shape>, below: Shape, above: Shape, keys: set<Key>, key: Key, k: Key)
    requires below.Node? && above.Node? && Underway(shapes, below, above, keys)
    requires Separate(below) && Foot(below) !! Foot(above) && k in shapes
    ensures below.self !in Foot(shapes[k])
    ensures k != key && key in below.children ==> Foot(shapes[k]) !! Foot(below.children[key])
  {
    if k in below.children {
      ChildInFoot(below, k);
    }
    if key in below.children {
      ChildInFoot(below, key);
    }
    if k in above.children {
      ChildInFoot(above, k);
      if k in below.children {
        FootOfMerge(below.children[k], above.children[k]);
      }
    }
  }

  method SetItem(dict: DictNode, key: Key, item: Item, ghost shapes: map<Key, Shape>, ghost s: Shape)
    requires HasAll(dict.entries, shapes) && Has(item, s)
    requires dict !in Foot(s) && forall k :: k in shapes ==> dict !in Foot(shapes[k])
    modifies dict
    ensures HasAll(dict.entries, shapes[key := s]) && dict.entries == old(dict.entries)[key := item]
  {
    dict.entries := dict.entries[key := item];
  }

  lemma UnderwayStep(shapes: map<Key, Shape>, below: Shape, above: Shape, keys: set<Key>, key: Key)
    requires below.Node? && above.Node? && Underway(shapes, below, above, keys) && key in keys
    ensures Underway(shapes[key := MergeAt(below, above, key)], below, above, keys - {key})
  {
  }

  lemma UnderwayEnds(shapes: map<Key, Shape>, below: Shape, above: Shape)
    requires below.Node? && above.Node? && Underway(shapes, below, above, {})
    ensures shapes == MergeShape(below, above).children
  {
  }

  /** recursively_update_map; dict iteration order is left open. */
  method UpdateMap(old_: DictNode, new_: DictNode, ghost below: Shape, ghost above: Shape)
    requires below.Node? && above.Node?
    requires Has(Nested(old_), below) && Has(Nested(new_), above)
    requires Separate(below) && Foot(below) !! Foot(above)
    modifies Foot(below)
    ensures Has(Nested(old_), MergeShape(below, above))
    decreases above, 2
  {
    FootAllocated(above);
    var keys := new_.entries.Keys;
    ghost var shapes := below.children;
    while keys != {}
      invariant Underway(shapes, below, above, keys)
      invariant unchanged(Foot(above))
      invariant HasAll(old_.entries, shapes)
      decreases keys
    {
      var key :| key in keys;
      UpdateKey(old_, new_, key, below, above, shapes, keys);
      UnderwayStep(shapes, below, above, keys, key);
      keys := keys - {key};
      shapes := shapes[key := MergeAt(below, above, key)];
    }
    UnderwayEnds(shapes, below, above);
  }

  /** One iteration of the loop. */
  method UpdateKey(old_: DictNode, new_: DictNode, key: Key,
                   ghost below: Shape, ghost above: Shape, ghost shapes: map<Key, Shape>, ghost keys: set<Key>)
    requires below.Node? && above.Node? && old_ == below.self && Has(Nested(new_), above)
    requires Separate(below) && Foot(below) !! Foot(above)
    requires Underway(shapes, below, above, keys) && key in keys && HasAll(old_.entries, shapes)
    modifies Foot(below)
    ensures HasAll(old_.entries, shapes[key := MergeAt(below, above, key)])
    decreases above, 1
  {
    ChildInFoot(above, key);
    forall k | k in shapes
      ensures old_ !in Foot(shapes[k])
      ensures k != key && key in below.children ==> Foot(shapes[k]) !! Foot(below.children[key])
    {
      UnderwayApart(shapes, below, above, keys, key, k);
    }
    if key in old_.entries && old_.entries[key].Nested? && new_.entries[key].Nested? {
      ChildInFoot(below, key);
      assert key in below.children && shapes[key] == below.children[key];
      assert MergeAt(below, above, key) == MergeShape(shapes[key], above.children[key]);
      UpdateNested(old_, key, new_.entries[key].node, shapes, above.children[key]);
    } else {
      assert key in shapes ==> Has(old_.entries[key], shapes[key]);
      assert MergeAt(below, above, key) == above.children[key];
      SetItem(old_, key, new_.entries[key], shapes, above.children[key]);
    }
  }

  /** Descends into the dict that is already there. */
  method UpdateNested(dict: DictNode, key: Key, new_: DictNode, ghost shapes: map<Key, Shape>, ghost above: Shape)
    requires HasAll(dict.entries, shapes) && key in shapes && shapes[key].Node? && above.Node?
    requires Has(Nested(new_), above) && Separate(shapes[key]) && Foot(shapes[key]) !! Foot(above)
    requires forall k :: k in shapes ==> dict !in Foot(shapes[k])
    requires forall k :: k in shapes && k != key ==> Foot(shapes[k]) !! Foot(shapes[key])
    modifies Foot(shapes[key])
    ensures HasAll(dict.entries, shapes[key := MergeShape(shapes[key], above)])
    decreases above, 3
  {
    assert Has(dict.entries[key], shapes[key]);
    forall k | k in shapes ensures forall x :: x in Foot(shapes[k]) ==> allocated(x) {
      FootAllocated(shapes[k]);
    }
    UpdateMap(dict.entries[key].node, new_, shapes[key], above);
    assert unchanged(dict);
    forall k | k in shapes && k != key ensures Has(dict.entries[k], shapes[k]) {
      assert unchanged(Foot(shapes[k]));
    }
  }

  // ---------- a loader and its layers ----------

  lemma FootAt(below: Shape, above: Shape, k: Key)
    requires below.Node? && above.Node? && (k in below.children || k in above.children)
    ensures Foot(MergeAt(below, above, k)) <= (if k in below.children then Foot(below.children[k]) else {})
                                              + (if k in above.children then Foot(above.children[k]) else {})
    ensures k in below.children ==> Foot(below.children[k]) <= Foot(below)
    ensures k in above.children ==> Foot(above.children[k]) <= Foot(above)
  {
    if k in below.children {
      ChildInFoot(below, k);
    }
    if k in above.children {
      ChildInFoot(above, k);
    }
    if k in below.children && k in above.children {
      FootOfMerge(below.children[k], above.children[k]);
    }
  }

  /** Merging layers that share no dict gives a config in which no dict occurs twice. */
  lemma {:induction false} SeparateMerge(below: Shape, above: Shape)
    requires Separate(below) && Separate(above) && Foot(below) !! Foot(above)
    ensures Separate(MergeShape(below, above))
    decreases above
  {
    if below.Node? && above.Node? {
      var merged := MergeShape(below, above).children;
      assert below.self in Foot(below);
      forall k | k in merged ensures Separate(merged[k]) && below.self !in Foot(merged[k]) {
        FootAt(below, above, k);
        if k in below.children && k in above.children {
          SeparateMerge(below.children[k], above.children[k]);
        }
      }
      forall k, l | k in merged && l in merged && k != l ensures Foot(merged[k]) !! Foot(merged[l]) {
        KeysApart(below, above, k, l);
      }
    }
  }

  lemma KeysApart(below: Shape, above: Shape, k: Key, l: Key)
    requires below.Node? && above.Node? && Separate(below) && Separate(above) && Foot(below) !! Foot(above) && k != l
    requires (k in below.children || k in above.children) && (l in below.children || l in above.children)
    ensures Foot(MergeAt(below, above, k)) !! Foot(MergeAt(below, above, l))
  {
    FootAt(below, above, k);
    FootAt(below, above, l);
  }

  class Loader {
    var values: DictNode
    ghost var shape: Shape

    ghost predicate Valid()
      reads this, Foot(shape)
    {
      shape.Node? && Has(Nested(values), shape) && Separate(shape)
    }

    constructor ()
      ensures Valid() && fresh(Foot(shape)) && Contents(shape) == EMPTY
    {
      var node := new DictNode();
      values := node;
      shape := Node(node, map[]);
    }

    /** use_values: the mapping must share no dict with those used so far. */
    method UseValues(layer: DictNode, ghost s: Shape, ghost used: set<DictNode>)
      requires Valid() && s.Node? && Has(Nested(layer), s) && Separate(s)
      requires Foot(shape) <= used && used !! Foot(s)
      modifies this`shape, used
      ensures Valid() && Foot(shape) <= used + Foot(s)
      ensures Contents(shape) == Merge(old(Contents(shape)), Contents(s))
    {
      UpdateMap(values, layer, shape, s);
      ContentsOfMerge(shape, s);
      FootOfMerge(shape, s);
      SeparateMerge(shape, s);
      shape := MergeShape(shape, s);
    }
  }

  ghost function FootOfLayers(shapes: seq<Shape>): set<DictNode> {
    set i, x | 0 <= i < |shapes| && x in Foot(shapes[i]) :: x
  }

  ghost function ContentsOfLayers(shapes: seq<Shape>): seq<Value> {
    if shapes == [] then []
    else ContentsOfLayers(shapes[..|shapes| - 1]) + [Contents(shapes[|shapes| - 1])]
  }

  lemma OneMoreLayer(shapes: seq<Shape>, i: nat)
    requires i < |shapes|
    ensures MergeAll(ContentsOfLayers(shapes[..i + 1]))
            == Merge(MergeAll(ContentsOfLayers(shapes[..i])), Contents(shapes[i]))
  {
    assert shapes[..i + 1][..i] == shapes[..i];
    var before := ContentsOfLayers(shapes[..i]);
    assert (before + [Contents(shapes[i])])[..|before|] == before;
  }

  /** Mappings that share no dict, neither with themselves nor with each other. */
  ghost predicate Unaliased(shapes: seq<Shape>) {
    && (forall i :: 0 <= i < |shapes| ==> shapes[i].Node? && Separate(shapes[i]))
    && (forall i, j :: 0 <= i < j < |shapes| ==> Foot(shapes[i]) !! Foot(shapes[j]))
  }

  /** Loading all layers, as use_values_from_yaml does for several files, gives their merge. */
  method LoadAll(layers: seq<DictNode>, ghost shapes: seq<Shape>) returns (loader: Loader)
    requires |layers| == |shapes| && Unaliased(shapes)
    requires forall i :: 0 <= i < |layers| ==> Has(Nested(layers[i]), shapes[i])
    modifies FootOfLayers(shapes)
    ensures loader.Valid() && Contents(loader.shape) == MergeAll(ContentsOfLayers(shapes))
  {
    forall i | 0 <= i < |shapes| ensures forall x :: x in Foot(shapes[i]) ==> allocated(x) {
      FootAllocated(shapes[i]);
    }
    loader := new Loader();
    ghost var used := Foot(loader.shape);
    for i := 0 to |layers|
      invariant loader.Valid() && fresh(loader) && Foot(loader.shape) <= used
      invariant fresh(used - FootOfLayers(shapes))
      invariant forall j :: i <= j < |shapes| ==> used !! Foot(shapes[j]) && unchanged(Foot(shapes[j]))
      invariant Contents(loader.shape) == MergeAll(ContentsOfLayers(shapes[..i]))
    {
      OneMoreLayer(shapes, i);
      loader.UseValues(layers[i], shapes[i], used);
      used := used + Foot(shapes[i]);
    }
    assert shapes[..|layers|] == shapes;
  }
}
