/** Layered configuration: what ConfigLoader.use_values means (src/blueapi/config.py). */
module ConfigMerge {
  import opened Basics

  type Key = string

  /** A nested mapping, or anything that is not a dict. */
  datatype Value = Leaf(text: string) | Dict(entries: map<Key, Value>)

  // ---------- the merge of two layers ----------

  /** A value after another one has been merged over it. */
  function Merge(below: Value, above: Value): Value
    decreases above
  {
    if below.Leaf? || above.Leaf? then above
    else
      Dict(map k | k in below.entries.Keys + above.entries.Keys ::
        if k !in above.entries then below.entries[k]
        else if k !in below.entries then above.entries[k]
        else Merge(below.entries[k], above.entries[k]))
  }

  const EMPTY := Dict(map[])

  /** All layers merged, the last one on top. */
  function MergeAll(layers: seq<Value>): Value {
    if layers == [] then EMPTY else Merge(MergeAll(layers[..|layers| - 1]), layers[|layers| - 1])
  }

  // ---------- which layer a path comes from ----------

  type Path = seq<Key>

  function Get(v: Value, path: Path): Option<Value> {
    if path == [] then Some(v)
    else if v.Dict? && path[0] in v.entries then Get(v.entries[path[0]], path[1..])
    else None
  }

  ghost predicate HoldsLeaf(v: Value, path: Path, text: string) {
    Get(v, path) == Some(Leaf(text))
  }

  /** The layer says something about the path itself, or cuts it off with a non-dict. */
  ghost predicate Hides(v: Value, path: Path) {
    Get(v, path).Some? || exists n :: 0 <= n < |path| && Get(v, path[..n]).Some? && Get(v, path[..n]).value.Leaf?
  }

  lemma HidesFirst(v: Value, path: Path)
    requires path != [] && v.Dict?
    ensures Hides(v, path) <==> path[0] in v.entries && Hides(v.entries[path[0]], path[1..])
  {
    if path[0] in v.entries {
      var w := v.entries[path[0]];
      forall n | 0 <= n < |path| - 1 ensures Get(v, path[..n + 1]) == Get(w, path[1..][..n]) {
        assert path[..n + 1][1..] == path[1..][..n];
      }
      if n :| 0 <= n < |path| && Get(v, path[..n]).Some? && Get(v, path[..n]).value.Leaf? {
        assert Get(v, path[..(n - 1) + 1]) == Get(w, path[1..][..n - 1]);
      }
      if n :| 0 <= n < |path[1..]| && Get(w, path[1..][..n]).Some? && Get(w, path[1..][..n]).value.Leaf? {
        assert Get(v, path[..n + 1]) == Get(w, path[1..][..n]);
      }
    }
  }

  lemma HidesLeaf(v: Value, path: Path)
    requires v.Leaf?
    ensures Hides(v, path)
  {
    if path != [] {
      assert Get(v, path[..0]) == Some(v);
    }
  }

  lemma {:induction false} LeafOfMerge(below: Value, above: Value, path: Path, text: string)
    ensures HoldsLeaf(Merge(below, above), path, text) <==>
            HoldsLeaf(above, path, text) || (HoldsLeaf(below, path, text) && !Hides(above, path))
    decreases |path|
  {
    if above.Leaf? {
      HidesLeaf(above, path);
    } else if path != [] && below.Dict? {
      HidesFirst(above, path);
      if path[0] in below.entries && path[0] in above.entries {
        LeafOfMerge(below.entries[path[0]], above.entries[path[0]], path[1..], text);
      }
    }
  }

  ghost predicate HoldsDict(v: Value, path: Path) {
    Get(v, path).Some? && Get(v, path).value.Dict?
  }

  /** A dict, even an empty one, survives exactly like a leaf. */
  lemma {:induction false} DictOfMerge(below: Value, above: Value, path: Path)
    ensures HoldsDict(Merge(below, above), path) <==>
            HoldsDict(above, path) || (HoldsDict(below, path) && !Hides(above, path))
    decreases |path|
  {
    if above.Leaf? {
      HidesLeaf(above, path);
    } else if path != [] && below.Dict? {
      HidesFirst(above, path);
      if path[0] in below.entries && path[0] in above.entries {
        DictOfMerge(below.entries[path[0]], above.entries[path[0]], path[1..]);
      }
    }
  }

  /** The layer that decides: it sets the leaf, and no later layer defines the path or puts a non-dict above it. */
  ghost predicate Decides(layers: seq<Value>, i: nat, path: Path, text: string) {
    i < |layers| && HoldsLeaf(layers[i], path, text) && forall j :: i < j < |layers| ==> !Hides(layers[j], path)
  }

  lemma {:induction false} LeafOfMergeAll(layers: seq<Value>, path: Path, text: string)
    requires forall l :: l in layers ==> l.Dict?
    ensures HoldsLeaf(MergeAll(layers), path, text) <==> exists i :: Decides(layers, i, path, text)
  {
    if layers != [] {
      var n := |layers| - 1;
      var before, top := layers[..n], layers[n];
      LeafOfMergeAll(before, path, text);
      LeafOfMerge(MergeAll(before), top, path, text);
      if HoldsLeaf(top, path, text) {
        assert Decides(layers, n, path, text);
      }
      if i: nat :| Decides(before, i, path, text) && !Hides(top, path) {
        assert Decides(layers, i, path, text);
      }
      if i: nat :| Decides(layers, i, path, text) && i < n {
        assert Decides(before, i, path, text);
      }
    }
  }

  // ---------- laws ----------

  lemma {:induction false} MergeAgain(below: Value, above: Value)
    ensures Merge(Merge(below, above), above) == Merge(below, above)
    decreases above
  {
    if below.Dict? && above.Dict? {
      forall k | k in above.entries ensures Merge(above.entries[k], above.entries[k]) == above.entries[k] {
        MergeSelf(above.entries[k]);
      }
      forall k | k in below.entries && k in above.entries
        ensures Merge(Merge(below.entries[k], above.entries[k]), above.entries[k])
                == Merge(below.entries[k], above.entries[k])
      {
        MergeAgain(below.entries[k], above.entries[k]);
      }
    } else {
      MergeSelf(above);
    }
  }

  lemma {:induction false} MergeSelf(v: Value)
    ensures Merge(v, v) == v
  {
    if v.Dict? {
      forall k | k in v.entries ensures Merge(v.entries[k], v.entries[k]) == v.entries[k] {
        MergeSelf(v.entries[k]);
      }
    }
  }

  /** Using the last layer a second time changes nothing. */
  lemma ReapplyingLastLayer(layers: seq<Value>, last: Value)
    ensures MergeAll(layers + [last, last]) == MergeAll(layers + [last])
  {
    var once, twice := layers + [last], layers + [last, last];
    assert once[..|once| - 1] == layers && twice[..|twice| - 1] == once;
    MergeAgain(MergeAll(layers), last);
  }

  /** Everything below is also decided above, so that merging changes nothing about above. */
  ghost predicate Covers(above: Value, below: Value)
    decreases above
  {
    above.Dict? && below.Dict? ==>
      forall k :: k in below.entries ==> k in above.entries && Covers(above.entries[k], below.entries[k])
  }

  lemma {:induction false} CoversMeansNoChange(below: Value, above: Value)
    ensures Merge(below, above) == above <==> Covers(above, below)
    decreases above
  {
    if below.Dict? && above.Dict? {
      forall k | k in below.entries && k in above.entries
        ensures Merge(below.entries[k], above.entries[k]) == above.entries[k] <==>
                Covers(above.entries[k], below.entries[k])
      {
        CoversMeansNoChange(below.entries[k], above.entries[k]);
      }
    }
  }

  /** Some path is a dict, a non-dict and a dict again in three layers, and the first is not covered by the third. */
  ghost predicate Clash(a: Value, b: Value, c: Value)
    decreases c
  {
    && a.Dict? && c.Dict?
    && (if b.Leaf? then !Covers(c, a)
        else exists k :: k in a.entries && k in b.entries && k in c.entries
                         && Clash(a.entries[k], b.entries[k], c.entries[k]))
  }

  lemma AssociativeAtKey(a: Value, b: Value, c: Value, k: Key)
    requires a.Dict? && b.Dict? && c.Dict?
    ensures var l, r := Merge(Merge(a, b), c).entries, Merge(a, Merge(b, c)).entries;
            && (k in l <==> k in r)
            && (k in l && !(k in a.entries && k in b.entries && k in c.entries) ==> l[k] == r[k])
            && (k in a.entries && k in b.entries && k in c.entries ==>
                  && l[k] == Merge(Merge(a.entries[k], b.entries[k]), c.entries[k])
                  && r[k] == Merge(a.entries[k], Merge(b.entries[k], c.entries[k])))
  {
  }

  lemma {:induction false} AssociativeWithoutClash(a: Value, b: Value, c: Value)
    requires !Clash(a, b, c)
    ensures Merge(Merge(a, b), c) == Merge(a, Merge(b, c))
    decreases c
  {
    if a.Dict? && c.Dict? && b.Leaf? {
      CoversMeansNoChange(a, c);
    } else if a.Dict? && b.Dict? && c.Dict? {
      var left, right := Merge(Merge(a, b), c).entries, Merge(a, Merge(b, c)).entries;
      forall k ensures (k in left <==> k in right) && (k in left ==> left[k] == right[k]) {
        AssociativeAtKey(a, b, c, k);
        if k in a.entries && k in b.entries && k in c.entries {
          AssociativeWithoutClash(a.entries[k], b.entries[k], c.entries[k]);
        }
      }
      assert left == right;
    }
  }

  lemma {:induction false} ClashBreaksAssociativity(a: Value, b: Value, c: Value)
    requires Clash(a, b, c)
    ensures Merge(Merge(a, b), c) != Merge(a, Merge(b, c))
    decreases c
  {
    if b.Leaf? {
      CoversMeansNoChange(a, c);
    } else {
      var k :| k in a.entries && k in b.entries && k in c.entries && Clash(a.entries[k], b.entries[k], c.entries[k]);
      AssociativeAtKey(a, b, c, k);
      ClashBreaksAssociativity(a.entries[k], b.entries[k], c.entries[k]);
    }
  }

  lemma AssociativeExactly(a: Value, b: Value, c: Value)
    ensures Merge(Merge(a, b), c) == Merge(a, Merge(b, c)) <==> !Clash(a, b, c)
  {
    if Clash(a, b, c) {
      ClashBreaksAssociativity(a, b, c);
    } else {
      AssociativeWithoutClash(a, b, c);
    }
  }

  lemma NotAssociative()
    ensures var a, c := Dict(map["k" := Dict(map["x" := Leaf("1")])]), Dict(map["k" := EMPTY]);
            var b := Dict(map["k" := Leaf("2")]);
            Merge(Merge(a, b), c) != Merge(a, Merge(b, c))
  {
    var a, c := Dict(map["k" := Dict(map["x" := Leaf("1")])]), Dict(map["k" := EMPTY]);
    var b := Dict(map["k" := Leaf("2")]);
    assert "x" in a.entries["k"].entries && "x" !in EMPTY.entries;
    assert !Covers(EMPTY, a.entries["k"]);
    assert Clash(a.entries["k"], b.entries["k"], c.entries["k"]);
    AssociativeExactly(a, b, c);
  }
}
