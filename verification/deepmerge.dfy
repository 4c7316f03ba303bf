/**
 The layered configuration merge (internal/config/loader.go). A decoded YAML document
 is a tree of tables; everything that is not a table, lists included, is a leaf. The
 class Table is the mutable Go map, shared and written in place; trees are the values
 it stands for.
 */
module DeepMerge {
  import opened Wrappers

  datatype Node = Leaf(text: string) | Branch(entries: map<string, Node>)

  const NOTHING: map<string, Node> := map[]

  /** The table a later table is merged into: the earlier value if it is one, else an empty table. */
  function Below(dst: map<string, Node>, key: string): map<string, Node> {
    if key in dst && dst[key].Branch? then dst[key].entries else NOTHING
  }

  /** Right-biased recursive merge: only tables merge, anything else is replaced. */
  function Merge(dst: map<string, Node>, src: Node): map<string, Node>
    requires src.Branch?
    decreases src
  {
    map key | key in dst.Keys + src.entries.Keys ::
      if key !in src.entries then dst[key]
      else if src.entries[key].Leaf? then src.entries[key]
      else Branch(Merge(Below(dst, key), src.entries[key]))
  }

  // ---- Laws ----

  /** Merging into nothing copies. */
  lemma {:induction false} MergeIntoNothing(src: Node)
    requires src.Branch?
    ensures Merge(NOTHING, src) == src.entries
    decreases src
  {
    var m := Merge(NOTHING, src);
    forall key | key in src.entries ensures m[key] == src.entries[key] {
      if src.entries[key].Branch? {
        MergeIntoNothing(src.entries[key]);
      }
    }
  }

  /** Applying a layer twice is applying it once. */
  lemma {:induction false} MergeIsIdempotent(dst: map<string, Node>, src: Node)
    requires src.Branch?
    ensures Merge(Merge(dst, src), src) == Merge(dst, src)
    decreases src
  {
    var once := Merge(dst, src);
    var twice := Merge(once, src);
    forall key | key in once ensures twice[key] == once[key] {
      if key in src.entries && src.entries[key].Branch? {
        MergeIsIdempotent(Below(dst, key), src.entries[key]);
        assert Below(once, key) == Merge(Below(dst, key), src.entries[key]);
      }
    }
  }

  // ---- Which layer a leaf comes from ----

  type Path = seq<string>

  /** The leaf at a path, if there is one. */
  function LeafAt(m: map<string, Node>, path: Path): Option<string>
    decreases |path|
  {
    if path == [] || path[0] !in m then None
    else
      match m[path[0]]
      case Leaf(text) => if |path| == 1 then Some(text) else None
      case Branch(entries) => LeafAt(entries, path[1..])
  }

  /** The layer defines the path, or puts something other than a table on a proper prefix of it. */
  predicate Touches(m: map<string, Node>, path: Path)
    decreases |path|
  {
    path == [] || (path[0] in m && (m[path[0]].Leaf? || Touches(m[path[0]].entries, path[1..])))
  }

  /** What Touches means, path by path. */
  function At(m: map<string, Node>, path: Path): Option<Node>
    decreases |path|
  {
    if path == [] then Some(Branch(m))
    else if path[0] !in m then None
    else if |path| == 1 then Some(m[path[0]])
    else if m[path[0]].Leaf? then None
    else At(m[path[0]].entries, path[1..])
  }

  lemma {:induction false} TouchesIff(m: map<string, Node>, path: Path)
    ensures Touches(m, path) <==>
            || At(m, path).Some?
            || exists n :: 0 <= n < |path| && At(m, path[..n]).Some? && At(m, path[..n]).value.Leaf?
    decreases |path|
  {
    if path != [] && path[0] in m {
      var head := path[0];
      if m[head].Leaf? {
        if |path| > 1 {
          assert path[..1] == [head];
          assert At(m, path[..1]) == Some(m[head]);
        }
      } else {
        var entries, rest := m[head].entries, path[1..];
        TouchesIff(entries, rest);
        assert At(m, path) == At(entries, rest) by {
          if |path| == 1 {
            assert rest == [];
          }
        }
        if n :| 0 <= n < |rest| && At(entries, rest[..n]).Some? && At(entries, rest[..n]).value.Leaf? {
          PathStep(m, path, n);
          assert At(m, path[..n + 1]).value.Leaf?;
        }
        if n :| 0 <= n < |path| && At(m, path[..n]).Some? && At(m, path[..n]).value.Leaf? {
          assert n > 0;
          PathStep(m, path, n - 1);
        }
      }
    } else if path != [] {
      assert forall n :: 0 < n <= |path| ==> path[..n][0] == path[0];
      assert forall n :: 0 < n <= |path| ==> At(m, path[..n]).None?;
      assert At(m, path[..0]) == Some(Branch(m));
    }
  }

  lemma PathStep(m: map<string, Node>, path: Path, n: nat)
    requires path != [] && path[0] in m && m[path[0]].Branch? && n < |path|
    ensures At(m, path[..n + 1]) == At(m[path[0]].entries, path[1..][..n])
  {
    assert path[..n + 1][1..] == path[1..][..n];
    assert path[..n + 1][0] == path[0];
  }

  /** A leaf of the merge is the later layer's where that layer touches the path, else the earlier one's. */
  lemma {:induction false} LeafOfMerge(dst: map<string, Node>, src: Node, path: Path)
    requires src.Branch?
    ensures LeafAt(Merge(dst, src), path) ==
            if Touches(src.entries, path) then LeafAt(src.entries, path) else LeafAt(dst, path)
    decreases src
  {
    if path != [] && path[0] in src.entries && src.entries[path[0]].Branch? {
      LeafOfMerge(Below(dst, path[0]), src.entries[path[0]], path[1..]);
    }
  }

  /** The layers merged in order. */
  function MergeAll(layers: seq<Node>): map<string, Node>
    requires forall i :: 0 <= i < |layers| ==> layers[i].Branch?
  {
    if layers == [] then NOTHING else Merge(MergeAll(layers[..|layers| - 1]), layers[|layers| - 1])
  }

  /**
   The last layer that touches a path, by defining it or by putting a non-table on a
   proper prefix of it, decides its leaf.
   */
  lemma {:induction false} LastTouchDecides(layers: seq<Node>, path: Path, i: nat)
    requires (forall k :: 0 <= k < |layers| ==> layers[k].Branch?) && i < |layers|
    requires Touches(layers[i].entries, path)
    requires forall j :: i < j < |layers| ==> !Touches(layers[j].entries, path)
    ensures LeafAt(MergeAll(layers), path) == LeafAt(layers[i].entries, path)
  {
    var last := |layers| - 1;
    LeafOfMerge(MergeAll(layers[..last]), layers[last], path);
    if i < last {
      LastTouchDecides(layers[..last], path, i);
    }
  }

  lemma {:induction false} UntouchedHasNoLeaf(layers: seq<Node>, path: Path)
    requires forall k :: 0 <= k < |layers| ==> layers[k].Branch? && !Touches(layers[k].entries, path)
    ensures LeafAt(MergeAll(layers), path) == None
  {
    if layers != [] {
      var last := |layers| - 1;
      UntouchedHasNoLeaf(layers[..last], path);
      LeafOfMerge(MergeAll(layers[..last]), layers[last], path);
    }
  }

  /** A layer with one leaf. */
  function Tower(path: Path, text: string): (layer: Node)
    requires path != []
    ensures layer.Branch?
    decreases |path|
  {
    Branch(map[path[0] := if |path| == 1 then Leaf(text) else Tower(path[1..], text)])
  }

  lemma {:induction false} TowerLeaf(path: Path, text: string)
    requires path != []
    ensures LeafAt(Tower(path, text).entries, path) == Some(text) && Touches(Tower(path, text).entries, path)
    decreases |path|
  {
    if |path| > 1 {
      TowerLeaf(path[1..], text);
    } else {
      assert path[1..] == [];
    }
  }

  lemma {:induction false} LastToucher(layers: seq<Node>, path: Path, i: nat) returns (k: nat)
    requires forall j :: 0 <= j < |layers| ==> layers[j].Branch?
    requires exists j :: i < j < |layers| && Touches(layers[j].entries, path)
    ensures i < k < |layers| && Touches(layers[k].entries, path)
    ensures forall j :: k < j < |layers| ==> !Touches(layers[j].entries, path)
  {
    k := |layers| - 1;
    while !Touches(layers[k].entries, path)
      invariant i < k < |layers|
      invariant exists j :: i < j <= k && Touches(layers[j].entries, path)
      invariant forall j :: k < j < |layers| ==> !Touches(layers[j].entries, path)
      decreases k
    {
      k := k - 1;
    }
  }

  /** Whatever a layer says of a path is said by the result exactly when no later layer touches the path. */
  lemma LayerDecidesIff(layers: seq<Node>, path: Path, i: nat)
    requires path != [] && i < |layers| && forall k :: 0 <= k < |layers| ==> layers[k].Branch?
    ensures (forall layer: Node :: layer.Branch? && Touches(layer.entries, path) ==>
               LeafAt(MergeAll(layers[i := layer]), path) == LeafAt(layer.entries, path))
            <==> forall j :: i < j < |layers| ==> !Touches(layers[j].entries, path)
  {
    if forall j :: i < j < |layers| ==> !Touches(layers[j].entries, path) {
      forall layer: Node | layer.Branch? && Touches(layer.entries, path)
        ensures LeafAt(MergeAll(layers[i := layer]), path) == LeafAt(layer.entries, path)
      {
        LastTouchDecides(layers[i := layer], path, i);
      }
    } else {
      var k := LastToucher(layers, path, i);
      var x, y := Tower(path, "x"), Tower(path, "y");
      TowerLeaf(path, "x");
      TowerLeaf(path, "y");
      LastTouchDecides(layers[i := x], path, k);
      LastTouchDecides(layers[i := y], path, k);
    }
  }

  // ---- When the grouping of the layers matters ----

  /** Nothing of the earlier table is outside the later one. */
  predicate Covered(dst: map<string, Node>, src: Node)
    requires src.Branch?
    decreases src
  {
    forall key :: key in dst ==>
      key in src.entries && (src.entries[key].Branch? ==> Covered(Below(dst, key), src.entries[key]))
  }

  lemma {:induction false} CoveredIff(dst: map<string, Node>, src: Node)
    requires src.Branch?
    ensures Merge(dst, src) == src.entries <==> Covered(dst, src)
    decreases src
  {
    var m := Merge(dst, src);
    forall key | key in src.entries
      ensures m[key] == src.entries[key] <==>
              (src.entries[key].Branch? ==> Covered(Below(dst, key), src.entries[key]))
    {
      if src.entries[key].Branch? {
        CoveredIff(Below(dst, key), src.entries[key]);
      }
    }
    assert m.Keys == src.entries.Keys <==> forall key :: key in dst ==> key in src.entries;
    forall key | key in src.entries && key !in dst && src.entries[key].Branch?
      ensures Covered(Below(dst, key), src.entries[key])
    {
      MergeIntoNothing(src.entries[key]);
      CoveredIff(NOTHING, src.entries[key]);
    }
    hide Merge;
  }

  /** Where b puts a leaf between two tables, the table of a is covered by that of c. */
  predicate NothingResurfaces(a: map<string, Node>, b: Node, c: Node)
    requires b.Branch? && c.Branch?
    decreases c
  {
    forall key :: key in b.entries && key in c.entries && c.entries[key].Branch? ==>
      if b.entries[key].Leaf? then Covered(Below(a, key), c.entries[key])
      else NothingResurfaces(Below(a, key), b.entries[key], c.entries[key])
  }

  /**
   Merging the later two layers first is merging them in order exactly when no leaf
   of the middle layer hides something of the first that a table of the last would
   bring back.
   */
  lemma {:induction false} MergeIsAssociativeIff(a: map<string, Node>, b: Node, c: Node)
    requires b.Branch? && c.Branch?
    ensures Merge(Merge(a, b), c) == Merge(a, Branch(Merge(b.entries, c))) <==> NothingResurfaces(a, b, c)
    decreases c
  {
    var left, right := Merge(Merge(a, b), c), Merge(a, Branch(Merge(b.entries, c)));
    assert left.Keys == right.Keys;
    forall key | key in left
      ensures left[key] == right[key] <==>
              (key in b.entries && key in c.entries && c.entries[key].Branch? ==>
                 if b.entries[key].Leaf? then Covered(Below(a, key), c.entries[key])
                 else NothingResurfaces(Below(a, key), b.entries[key], c.entries[key]))
    {
      GroupingsAt(a, b, c, key);
      if key in b.entries && key in c.entries && c.entries[key].Branch? {
        if b.entries[key].Leaf? {
          CoveredIff(Below(a, key), c.entries[key]);
        } else {
          MergeIsAssociativeIff(Below(a, key), b.entries[key], c.entries[key]);
        }
      }
      hide Merge;
    }
    hide Merge;
  }

  /** What a leaf hides between two tables, for good when merged in order, comes back otherwise. */
  lemma LeafBetween(a: map<string, Node>, b: Node, c: Node, key: string, lost: string)
    requires b.Branch? && key in b.entries && b.entries[key].Leaf?
    requires c.Branch? && key in c.entries && c.entries[key].Branch?
    requires lost in Below(a, key) && lost !in c.entries[key].entries
    ensures Merge(Merge(a, b), c) != Merge(a, Branch(Merge(b.entries, c)))
  {
    MergeIsAssociativeIff(a, b, c);
    assert !Covered(Below(a, key), c.entries[key]);
    assert !NothingResurfaces(a, b, c);
    hide Merge;
  }

  lemma MergeIsNotAssociative()
    ensures exists a: map<string, Node>, b: Node, c: Node :: b.Branch? && c.Branch? &&
              Merge(Merge(a, b), c) != Merge(a, Branch(Merge(b.entries, c)))
  {
    hide Merge;
    var a: map<string, Node> := map["k" := Branch(map["x" := Leaf("1")])];
    LeafBetween(a, Branch(map["k" := Leaf("off")]), Branch(map["k" := Branch(map["y" := Leaf("3")])]), "k", "x");
  }

  /** What the two groupings put under one key. */
  lemma GroupingsAt(a: map<string, Node>, b: Node, c: Node, key: string)
    requires b.Branch? && c.Branch? && (key in a || key in b.entries || key in c.entries)
    ensures var left, right := Merge(Merge(a, b), c), Merge(a, Branch(Merge(b.entries, c)));
            && key in left && key in right
            && if key in b.entries && key in c.entries && c.entries[key].Branch? then
                 if b.entries[key].Leaf?
                 then left[key] == c.entries[key] && right[key] == Branch(Merge(Below(a, key), c.entries[key]))
                 else
                   && left[key] == Branch(Merge(Merge(Below(a, key), b.entries[key]), c.entries[key]))
                   && right[key] == Branch(Merge(Below(a, key), Branch(Merge(b.entries[key].entries, c.entries[key]))))
               else left[key] == right[key]
  {
    if key in c.entries && c.entries[key].Branch? {
      MergeIntoNothing(c.entries[key]);
    }
  }

  // ---- The code ----

  /** What a Go map holds under a key: a leaf, or a reference to another map. */
  datatype Entry = Text(text: string) | Nested(table: Table)

  class Table {
    var entries: map<string, Entry>

    constructor (entries: map<string, Entry>)
      ensures this.entries == entries
    {
      this.entries := entries;
    }
  }

  /** The entry stands for the value, reading only tables of the region. */
  ghost predicate Shows(e: Entry, v: Node, region: set<Table>)
    reads region
    decreases v
  {
    match e
    case Text(text) => v == Leaf(text)
    case Nested(t) => v.Branch? && t in region && ShowsAll(t.entries, v, region)
  }

  ghost predicate ShowsAll(entries: map<string, Entry>, v: Node, region: set<Table>)
    requires v.Branch?
    reads region
    decreases v, 0
  {
    entries.Keys == v.entries.Keys && forall key :: key in v.entries ==> Shows(entries[key], v.entries[key], region)
  }

  lemma {:induction false} ShowsInLarger(e: Entry, v: Node, region: set<Table>, larger: set<Table>)
    requires Shows(e, v, region) && region <= larger
    ensures Shows(e, v, larger)
    decreases v
  {
    if e.Nested? {
      forall key | key in v.entries ensures Shows(e.table.entries[key], v.entries[key], larger) {
        ShowsInLarger(e.table.entries[key], v.entries[key], region, larger);
      }
    }
  }

  /** Part way through the walk over the source: the keys visited are merged, the others are as they were. */
  ghost predicate Merging(entries: map<string, Entry>, d: Node, s: Node, left: set<string>, region: set<Table>)
    requires d.Branch? && s.Branch?
    reads region
  {
    && left <= s.entries.Keys
    && entries.Keys == d.entries.Keys + (s.entries.Keys - left)
    && (forall key :: key in entries ==>
          Shows(entries[key], if key in left then d.entries[key] else Merge(d.entries, s)[key], region))
  }

  lemma MergingInLarger(
    entries: map<string, Entry>, d: Node, s: Node, left: set<string>, region: set<Table>, larger: set<Table>)
    requires d.Branch? && s.Branch? && Merging(entries, d, s, left, region) && region <= larger
    ensures Merging(entries, d, s, left, larger)
  {
    forall key | key in entries
      ensures Shows(entries[key], if key in left then d.entries[key] else Merge(d.entries, s)[key], larger)
    {
      ShowsInLarger(entries[key], if key in left then d.entries[key] else Merge(d.entries, s)[key], region, larger);
    }
  }

  lemma ShowsAllInLarger(entries: map<string, Entry>, v: Node, region: set<Table>, larger: set<Table>)
    requires v.Branch? && ShowsAll(entries, v, region) && region <= larger
    ensures ShowsAll(entries, v, larger)
  {
    forall key | key in v.entries ensures Shows(entries[key], v.entries[key], larger) {
      ShowsInLarger(entries[key], v.entries[key], region, larger);
    }
  }

  /** Visiting a key puts its merged value in place. */
  lemma Visit(
    entries: map<string, Entry>, d: Node, s: Node, left: set<string>, region: set<Table>, key: string, e: Entry)
    requires d.Branch? && s.Branch? && Merging(entries, d, s, left, region) && key in left
    requires Shows(e, Merge(d.entries, s)[key], region)
    ensures Merging(entries[key := e], d, s, left - {key}, region)
  {
    hide Shows;
    hide Merge;
    assert (entries[key := e]).Keys == d.entries.Keys + (s.entries.Keys - (left - {key}));
  }

  /** The table copied for a key still to be visited is the one below it. */
  lemma BelowIsShown(entries: map<string, Entry>, d: Node, s: Node, left: set<string>, region: set<Table>, key: string)
    requires d.Branch? && s.Branch? && Merging(entries, d, s, left, region) && key in left
    ensures var existing := if key in entries && entries[key].Nested? then entries[key].table.entries else map[];
            ShowsAll(existing, Branch(Below(d.entries, key)), region)
  {
    hide Merge;
    if key in entries {
      assert Shows(entries[key], d.entries[key], region);
    }
  }

  /**
   The merge, in place and in whatever order the source is walked. The only existing
   table it writes is dst: nested tables are copied before they are merged into.
   */
  method Apply(dst: Table, src: Table, ghost d: Node, ghost s: Node, ghost region: set<Table>)
    returns (ghost region': set<Table>)
    requires d.Branch? && s.Branch? && dst != src && dst !in region
    requires ShowsAll(dst.entries, d, region) && ShowsAll(src.entries, s, region)
    modifies dst
    ensures region <= region' && fresh(region' - region) && dst !in region'
    ensures ShowsAll(dst.entries, Branch(Merge(d.entries, s)), region')
    decreases s, 1
  {
    region' := region;
    SameKeys(src.entries, s, region);
    var left := src.entries.Keys;
    MergingStarts(dst.entries, d, s, region);
    hide Merging;
    hide Merge;
    hide Shows;
    hide ShowsAll;
    while left != {}
      invariant region <= region' && fresh(region' - region) && dst !in region'
      invariant Merging(dst.entries, d, s, left, region')
      invariant ShowsAll(src.entries, s, region)
      decreases |left|
    {
      var key :| key in left;
      LeftIsKnown(dst.entries, d, s, left, region');
      ShowsAllInLarger(src.entries, s, region, region');
      region' := MergeKey(dst, src, key, d, s, left, region');
      left := left - {key};
    }
    MergingEnds(dst.entries, d, s, region');
  }

  lemma SameKeys(entries: map<string, Entry>, v: Node, region: set<Table>)
    requires v.Branch? && ShowsAll(entries, v, region)
    ensures entries.Keys == v.entries.Keys
  {
  }

  lemma MergingStarts(entries: map<string, Entry>, d: Node, s: Node, region: set<Table>)
    requires d.Branch? && s.Branch? && ShowsAll(entries, d, region)
    ensures Merging(entries, d, s, s.entries.Keys, region)
  {
    hide Shows;
  }

  lemma LeftIsKnown(entries: map<string, Entry>, d: Node, s: Node, left: set<string>, region: set<Table>)
    requires d.Branch? && s.Branch? && Merging(entries, d, s, left, region)
    ensures left <= s.entries.Keys
  {
  }

  lemma MergingEnds(entries: map<string, Entry>, d: Node, s: Node, region: set<Table>)
    requires d.Branch? && s.Branch? && Merging(entries, d, s, {}, region)
    ensures ShowsAll(entries, Branch(Merge(d.entries, s)), region)
  {
    hide Shows;
  }

  /** One turn of the walk. */
  method MergeKey(dst: Table, src: Table, key: string,
                  ghost d: Node, ghost s: Node, ghost left: set<string>, ghost region: set<Table>)
    returns (ghost region': set<Table>)
    requires d.Branch? && s.Branch? && dst != src && dst !in region
    requires Merging(dst.entries, d, s, left, region) && ShowsAll(src.entries, s, region) && key in left
    modifies dst
    ensures region <= region' && fresh(region' - region) && dst !in region'
    ensures Merging(dst.entries, d, s, left - {key}, region')
    decreases s, 0
  {
    region' := region;
    ghost var before := dst.entries;
    SourceEntry(src.entries, s, region, key);
    BelowIsShown(dst.entries, d, s, left, region, key);
    MergedKey(d, s, key);
    hide Shows;
    hide Merging;
    hide Merge;
    hide ShowsAll;
    hide Below;
    if src.entries[key].Text? {
      dst.entries := dst.entries[key := src.entries[key]];
      Visit(before, d, s, left, region, key, src.entries[key]);
    } else {
      var existing := if key in dst.entries && dst.entries[key].Nested? then dst.entries[key].table.entries else map[];
      var clone;
      clone, region' := Copy(existing, src.entries[key].table, Branch(Below(d.entries, key)), s.entries[key], region);
      dst.entries := dst.entries[key := Nested(clone)];
      MergingInLarger(before, d, s, left, region, region');
      NestedIsShown(clone, Merge(d.entries, s)[key], region');
      Visit(before, d, s, left, region', key, Nested(clone));
    }
  }

  /** A copy of the existing entries, with the source merged into the copy. */
  method Copy(existing: map<string, Entry>, src: Table, ghost below: Node, ghost s: Node, ghost region: set<Table>)
    returns (clone: Table, ghost region': set<Table>)
    requires below.Branch? && s.Branch? && ShowsAll(existing, below, region) && ShowsAll(src.entries, s, region)
    ensures fresh(clone) && clone in region' && region <= region' && fresh(region' - region)
    ensures ShowsAll(clone.entries, Branch(Merge(below.entries, s)), region')
    decreases s, 2
  {
    hide Shows;
    hide Merge;
    hide ShowsAll;
    clone := new Table(existing);
    region' := Apply(clone, src, below, s, region);
    ShowsAllInLarger(clone.entries, Branch(Merge(below.entries, s)), region', region' + {clone});
    region' := region' + {clone};
  }

  lemma NestedIsShown(t: Table, v: Node, region: set<Table>)
    requires v.Branch? && t in region && ShowsAll(t.entries, v, region)
    ensures Shows(Nested(t), v, region)
  {
  }

  /** An entry of the source is a leaf where its value is, and otherwise a table standing for its value. */
  lemma SourceEntry(entries: map<string, Entry>, s: Node, region: set<Table>, key: string)
    requires s.Branch? && ShowsAll(entries, s, region) && key in s.entries
    ensures key in entries && Shows(entries[key], s.entries[key], region)
    ensures entries[key].Text? <==> s.entries[key].Leaf?
    ensures entries[key].Nested? ==>
              entries[key].table in region && ShowsAll(entries[key].table.entries, s.entries[key], region)
  {
    assert Shows(entries[key], s.entries[key], region);
  }

  lemma MergedKey(d: Node, s: Node, key: string)
    requires d.Branch? && s.Branch? && key in s.entries
    ensures key in Merge(d.entries, s)
    ensures Merge(d.entries, s)[key] ==
            if s.entries[key].Leaf? then s.entries[key] else Branch(Merge(Below(d.entries, key), s.entries[key]))
  {
  }

  // ---- The fold over the layers ----

  datatype File = Missing | Broken | Document(table: Table)

  datatype Error = NoFile | NotRead(name: string)

  /** The group files in order but for the local one, then the environment's, then the local one. */
  function Order(groups: seq<string>, env: string): seq<string> {
    NotLocal(groups) + ["env/" + env + ".yaml", "local.yaml"]
  }

  function NotLocal(names: seq<string>): seq<string> {
    if names == [] then []
    else NotLocal(names[..|names| - 1]) + if names[|names| - 1] == "local.yaml" then [] else [names[|names| - 1]]
  }

  /** The i-th file of the order stops the load: it is no document, and not a missing one that may be missing. */
  predicate Unreadable(groups: seq<string>, env: string, files: map<string, File>, i: nat)
    requires i < |Order(groups, env)|
  {
    var name := Order(groups, env)[i];
    !Mergeable(files, name, i >= |NotLocal(groups)|)
  }

  predicate Mergeable(files: map<string, File>, name: string, optional: bool) {
    if name !in files || files[name].Missing? then optional else files[name].Document?
  }

  /** The documents of the names that have one. */
  ghost function LayersOf(names: seq<string>, values: map<string, Node>): (layers: seq<Node>)
    requires forall name :: name in values ==> values[name].Branch?
    ensures forall i :: 0 <= i < |layers| ==> layers[i].Branch?
  {
    if names == [] then []
    else
      var last := names[|names| - 1];
      LayersOf(names[..|names| - 1], values) + if last in values then [values[last]] else []
  }

  /**
   Precedence: the local file decides every path it touches, else the environment's
   file those it touches, else the last group file that touches the path.
   */
  lemma LocalThenEnvThenGroups(groups: seq<string>, env: string, values: map<string, Node>, path: Path, i: nat)
    requires forall name :: name in values ==> values[name].Branch?
    ensures var leaf, local, envFile :=
              LeafAt(MergeAll(LayersOf(Order(groups, env), values)), path), "local.yaml", "env/" + env + ".yaml";
            if local in values && Touches(values[local].entries, path) then
              leaf == LeafAt(values[local].entries, path)
            else if envFile in values && Touches(values[envFile].entries, path) then
              leaf == LeafAt(values[envFile].entries, path)
            else
              GroupDecides(groups, values, path, i) ==> leaf == LeafAt(values[groups[i]].entries, path)
  {
    var local, envFile, names := "local.yaml", "env/" + env + ".yaml", NotLocal(groups);
    assert Order(groups, env) == (names + [envFile]) + [local];
    OneMoreLayer(names + [envFile], local, values);
    OneMoreLayer(names, envFile, values);
    if local in values {
      LeafOfMerge(MergeAll(LayersOf(names + [envFile], values)), values[local], path);
    }
    if envFile in values {
      LeafOfMerge(MergeAll(LayersOf(names, values)), values[envFile], path);
    }
    if GroupDecides(groups, values, path, i) {
      LastGroupDecides(groups, values, path, i);
    }
    hide *;
  }

  /** The i-th group file, not the local one, touches the path, and no later group file does. */
  predicate GroupDecides(groups: seq<string>, values: map<string, Node>, path: Path, i: nat)
    requires forall name :: name in values ==> values[name].Branch?
  {
    && i < |groups| && groups[i] != "local.yaml" && groups[i] in values && Touches(values[groups[i]].entries, path)
    && forall j :: i < j < |groups| && groups[j] != "local.yaml" && groups[j] in values ==>
         !Touches(values[groups[j]].entries, path)
  }

  lemma {:induction false} LastGroupDecides(groups: seq<string>, values: map<string, Node>, path: Path, i: nat)
    requires forall name :: name in values ==> values[name].Branch?
    requires GroupDecides(groups, values, path, i)
    ensures LeafAt(MergeAll(LayersOf(NotLocal(groups), values)), path) == LeafAt(values[groups[i]].entries, path)
  {
    var n := |groups| - 1;
    var front, last := NotLocal(groups[..n]), groups[n];
    if last != "local.yaml" {
      OneMoreLayer(front, last, values);
      if last in values {
        LeafOfMerge(MergeAll(LayersOf(front, values)), values[last], path);
      }
    } else {
      assert front + [] == front;
    }
    if i < n {
      LastGroupDecides(groups[..n], values, path, i);
    }
  }

  ghost predicate Decoded(files: map<string, File>, values: map<string, Node>, region: set<Table>)
    reads region, set name | name in files && files[name].Document? :: files[name].table
  {
    && (forall name :: name in values ==> values[name].Branch? && name in files && files[name].Document?)
    && (forall name :: name in files && files[name].Document? ==>
          name in values && ShowsAll(files[name].table.entries, values[name], region))
  }

  /** Merges one file into the layers so far; a missing optional file is skipped. */
  method MergeFile(merged: Table, name: string, optional: bool, files: map<string, File>,
                   ghost values: map<string, Node>, ghost names: seq<string>, ghost region: set<Table>)
    returns (ok: bool, ghost region': set<Table>)
    requires merged !in region && Decoded(files, values, region)
    requires forall n :: n in files && files[n].Document? ==> files[n].table != merged
    requires ShowsAll(merged.entries, Branch(MergeAll(LayersOf(names, values))), region)
    modifies merged
    ensures region <= region' && fresh(region' - region) && merged !in region'
    ensures ok <==> Mergeable(files, name, optional)
    ensures ok <==> (name in files && files[name].Document?) || (optional && (name !in files || files[name].Missing?))
    ensures ok ==> ShowsAll(merged.entries, Branch(MergeAll(LayersOf(names + [name], values))), region')
  {
    region' := region;
    OneMoreLayer(names, name, values);
    if name !in files || files[name].Missing? {
      return optional, region;
    }
    if files[name].Broken? {
      return false, region;
    }
    region' := Apply(merged, files[name].table, Branch(MergeAll(LayersOf(names, values))), values[name], region);
    ok := true;
  }

  lemma OneMoreLayer(names: seq<string>, name: string, values: map<string, Node>)
    requires forall n :: n in values ==> values[n].Branch?
    ensures MergeAll(LayersOf(names + [name], values)) ==
            if name in values then Merge(MergeAll(LayersOf(names, values)), values[name])
            else MergeAll(LayersOf(names, values))
  {
    assert (names + [name])[..|names|] == names;
    var layers := LayersOf(names, values);
    if name in values {
      assert (layers + [values[name]])[..|layers|] == layers;
    } else {
      assert LayersOf(names + [name], values) == layers;
    }
  }

  /** The first of the names that cannot be merged, if there is one. */
  ghost predicate FirstFailure(failed: Option<string>, names: seq<string>, files: map<string, File>, optional: bool) {
    match failed
    case None => forall i :: 0 <= i < |names| ==> Mergeable(files, names[i], optional)
    case Some(name) =>
      exists i :: 0 <= i < |names| && names[i] == name && !Mergeable(files, name, optional)
        && forall j :: 0 <= j < i ==> Mergeable(files, names[j], optional)
  }

  lemma {:induction false} NotLocalGrows(groups: seq<string>, i: nat)
    requires i <= |groups|
    ensures NotLocal(groups[..i]) <= NotLocal(groups)
    decreases |groups|
  {
    if i == |groups| {
      assert groups[..i] == groups;
    } else {
      NotLocalGrows(groups[..|groups| - 1], i);
      assert groups[..|groups| - 1][..i] == groups[..i];
    }
  }

  lemma NoGroup(files: map<string, File>, values: map<string, Node>, region: set<Table>)
    requires forall n :: n in values ==> values[n].Branch?
    ensures ShowsAll(map[], Branch(MergeAll(LayersOf(NotLocal([]), values))), region)
    ensures FirstFailure(None, NotLocal([]), files, false)
  {
  }

  lemma NextGroup(groups: seq<string>, i: nat, files: map<string, File>)
    requires i < |groups|
    ensures NotLocal(groups[..i + 1]) ==
            if groups[i] == "local.yaml" then NotLocal(groups[..i]) else NotLocal(groups[..i]) + [groups[i]]
    ensures FirstFailure(None, NotLocal(groups[..i]), files, false)
            && (groups[i] == "local.yaml" || Mergeable(files, groups[i], false)) ==>
              FirstFailure(None, NotLocal(groups[..i + 1]), files, false)
  {
    assert groups[..i + 1][..i] == groups[..i];
  }

  lemma FailsHere(groups: seq<string>, i: nat, files: map<string, File>)
    requires i < |groups| && groups[i] != "local.yaml" && !Mergeable(files, groups[i], false)
    requires FirstFailure(None, NotLocal(groups[..i]), files, false)
    ensures FirstFailure(Some(groups[i]), NotLocal(groups), files, false)
  {
    NotLocalGrows(groups, i + 1);
    NextGroup(groups, i, files);
    var k := |NotLocal(groups[..i])|;
    assert NotLocal(groups)[k] == groups[i];
    assert forall j :: 0 <= j < k ==> NotLocal(groups)[j] == NotLocal(groups[..i])[j];
  }

  /** The group files, in order but for the local one; each must be readable. */
  method MergeGroups(merged: Table, groups: seq<string>, files: map<string, File>,
                     ghost values: map<string, Node>, ghost region: set<Table>)
    returns (failed: Option<string>, ghost region': set<Table>)
    requires merged !in region && Decoded(files, values, region) && merged.entries == map[]
    requires forall n :: n in files && files[n].Document? ==> files[n].table != merged
    modifies merged
    ensures region <= region' && fresh(region' - region) && merged !in region'
    ensures FirstFailure(failed, NotLocal(groups), files, false)
    ensures failed.None? ==> ShowsAll(merged.entries, Branch(MergeAll(LayersOf(NotLocal(groups), values))), region')
  {
    hide Shows;
    hide ShowsAll;
    hide Merge;
    NoGroup(files, values, region);
    hide MergeAll;
    hide LayersOf;
    hide NotLocal;
    hide FirstFailure;
    hide Decoded;
    region' := region;
    assert groups[..0] == [];
    for i := 0 to |groups|
      invariant region <= region' && fresh(region' - region) && merged !in region'
      invariant Decoded(files, values, region')
      invariant ShowsAll(merged.entries, Branch(MergeAll(LayersOf(NotLocal(groups[..i]), values))), region')
      invariant FirstFailure(None, NotLocal(groups[..i]), files, false)
    {
      failed, region' := MergeGroup(merged, groups, i, files, values, region');
      if failed.Some? {
        return;
      }
    }
    assert groups[..|groups|] == groups;
    return None, region';
  }

  /** One group file, unless it is the local one. */
  method MergeGroup(merged: Table, groups: seq<string>, i: nat, files: map<string, File>,
                    ghost values: map<string, Node>, ghost region: set<Table>)
    returns (failed: Option<string>, ghost region': set<Table>)
    requires merged !in region && Decoded(files, values, region) && i < |groups|
    requires forall n :: n in files && files[n].Document? ==> files[n].table != merged
    requires ShowsAll(merged.entries, Branch(MergeAll(LayersOf(NotLocal(groups[..i]), values))), region)
    requires FirstFailure(None, NotLocal(groups[..i]), files, false)
    modifies merged
    ensures region <= region' && fresh(region' - region) && merged !in region' && Decoded(files, values, region')
    ensures failed.None? ==>
              && ShowsAll(merged.entries, Branch(MergeAll(LayersOf(NotLocal(groups[..i + 1]), values))), region')
              && FirstFailure(None, NotLocal(groups[..i + 1]), files, false)
    ensures failed.Some? ==> FirstFailure(failed, NotLocal(groups), files, false)
  {
    NextGroup(groups, i, files);
    hide Shows;
    hide ShowsAll;
    hide Merge;
    hide MergeAll;
    hide LayersOf;
    hide NotLocal;
    hide FirstFailure;
    if groups[i] == "local.yaml" {
      return None, region;
    }
    var ok;
    ok, region' := MergeFile(merged, groups[i], false, files, values, NotLocal(groups[..i]), region);
    DecodedInLarger(files, values, region, region');
    failed := None;
    if !ok {
      FailsHere(groups, i, files);
      failed := Some(groups[i]);
    }
  }

  /** Then the environment's file and the local one; either may be missing. */
  method MergeOptional(merged: Table, last: seq<string>, files: map<string, File>, ghost names: seq<string>,
                       ghost values: map<string, Node>, ghost region: set<Table>)
    returns (failed: Option<string>, ghost region': set<Table>)
    requires merged !in region && Decoded(files, values, region)
    requires forall n :: n in files && files[n].Document? ==> files[n].table != merged
    requires ShowsAll(merged.entries, Branch(MergeAll(LayersOf(names, values))), region)
    modifies merged
    ensures region <= region' && fresh(region' - region) && merged !in region'
    ensures FirstFailure(failed, last, files, true)
    ensures failed.None? ==> ShowsAll(merged.entries, Branch(MergeAll(LayersOf(names + last, values))), region')
  {
    hide Shows;
    hide ShowsAll;
    hide Merge;
    hide MergeAll;
    hide LayersOf;
    region' := region;
    assert names + last[..0] == names;
    for i := 0 to |last|
      invariant region <= region' && fresh(region' - region) && merged !in region'
      invariant Decoded(files, values, region)
      invariant ShowsAll(merged.entries, Branch(MergeAll(LayersOf(names + last[..i], values))), region')
      invariant forall j :: 0 <= j < i ==> Mergeable(files, last[j], true)
    {
      assert names + last[..i + 1] == names + last[..i] + [last[i]];
      DecodedInLarger(files, values, region, region');
      var ok;
      ok, region' := MergeFile(merged, last[i], true, files, values, names + last[..i], region');
      if !ok {
        return Some(last[i]), region';
      }
    }
    assert last[..|last|] == last;
    return None, region';
  }

  /**
   The whole configuration: a new table standing for the layers merged in order, no
   existing table written. A group file must be readable; the environment's and the
   local file may be missing.
   */
  method MergeLayers(groups: seq<string>, env: string, files: map<string, File>,
                     ghost values: map<string, Node>, ghost region: set<Table>)
    returns (r: Result<Table, Error>, ghost region': set<Table>)
    requires Decoded(files, values, region)
    ensures groups == [] <==> r == Err(NoFile)
    ensures r.Ok? <==> groups != [] && forall i :: 0 <= i < |Order(groups, env)| ==> !Unreadable(groups, env, files, i)
    ensures r.Err? && r.error.NotRead? ==>
              exists i :: 0 <= i < |Order(groups, env)| && Order(groups, env)[i] == r.error.name
                && Unreadable(groups, env, files, i) && forall j :: 0 <= j < i ==> !Unreadable(groups, env, files, j)
    ensures r.Ok? ==> fresh(r.value) && fresh(region' - region)
    ensures r.Ok? ==> ShowsAll(r.value.entries, Branch(MergeAll(LayersOf(Order(groups, env), values))), region')
  {
    hide Shows;
    hide ShowsAll;
    hide Merge;
    hide MergeAll;
    hide LayersOf;
    hide NotLocal;
    if groups == [] {
      return Err(NoFile), region;
    }
    var merged := new Table(map[]);
    var failed;
    failed, region' := MergeGroups(merged, groups, files, values, region);
    if failed.None? {
      DecodedInLarger(files, values, region, region');
      failed, region' := MergeOptional(
        merged, ["env/" + env + ".yaml", "local.yaml"], files, NotLocal(groups), values, region');
    }
    FirstUnreadable(groups, env, files, failed);
    r := if failed.Some? then Err(NotRead(failed.value)) else Ok(merged);
  }

  lemma FirstUnreadable(groups: seq<string>, env: string, files: map<string, File>, failed: Option<string>)
    requires FirstFailure(failed, NotLocal(groups), files, false)
             || (FirstFailure(None, NotLocal(groups), files, false)
                 && FirstFailure(failed, ["env/" + env + ".yaml", "local.yaml"], files, true))
    requires failed.None? ==> FirstFailure(None, ["env/" + env + ".yaml", "local.yaml"], files, true)
    ensures failed.None? <==> forall i :: 0 <= i < |Order(groups, env)| ==> !Unreadable(groups, env, files, i)
    ensures failed.Some? ==>
              exists i :: 0 <= i < |Order(groups, env)| && Order(groups, env)[i] == failed.value
                && Unreadable(groups, env, files, i) && forall j :: 0 <= j < i ==> !Unreadable(groups, env, files, j)
  {
    var required, optional := NotLocal(groups), ["env/" + env + ".yaml", "local.yaml"];
    hide NotLocal;
    if failed.Some? {
      if FirstFailure(failed, required, files, false) {
        var i :| 0 <= i < |required| && required[i] == failed.value && !Mergeable(files, failed.value, false)
          && forall j :: 0 <= j < i ==> Mergeable(files, required[j], false);
        assert Unreadable(groups, env, files, i);
      } else {
        var i :| 0 <= i < |optional| && optional[i] == failed.value && !Mergeable(files, failed.value, true)
          && forall j :: 0 <= j < i ==> Mergeable(files, optional[j], true);
        assert Unreadable(groups, env, files, |required| + i);
      }
    }
  }

  lemma DecodedInLarger(files: map<string, File>, values: map<string, Node>, region: set<Table>, larger: set<Table>)
    requires Decoded(files, values, region) && region <= larger
    ensures Decoded(files, values, larger)
  {
    forall name | name in files && files[name].Document?
      ensures ShowsAll(files[name].table.entries, values[name], larger)
    {
      ShowsAllInLarger(files[name].table.entries, values[name], region, larger);
    }
  }
}
