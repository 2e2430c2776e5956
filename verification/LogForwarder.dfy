// The log forwarder's redaction of a record's own dictionaries, in place.
module LogForwarder {
  import opened Basics
  import opened Redaction

  datatype Value = Leaf(json: Json) | Node(dict: Dict)

  class Dict {
    var fields: map<string, Value>
    ghost var repr: set<Dict>

    ghost predicate Valid()
      reads this, repr
    {
      this in repr && TreeShaped(Snapshot(repr), this)
    }

    ghost function Tree(): Json
      requires Valid()
      reads this, repr
    {
      TreeIn(Snapshot(repr), this)
    }
  }

  // The dictionaries' contents at one moment, with the part of the heap below each.
  datatype Cell = Cell(fields: map<string, Value>, repr: set<Dict>)

  type Heap = map<Dict, Cell>

  ghost function Snapshot(dicts: set<Dict>): Heap
    reads dicts
  {
    map d | d in dicts :: Cell(d.fields, d.repr)
  }

  ghost predicate Inside(h: Heap, d: Dict, outer: Dict) {
    d in h && outer in h && d in h[d].repr && h[d].repr <= h[outer].repr - {outer}
  }

  // No dictionary below d is shared or holds itself.
  ghost predicate TreeShaped(h: Heap, d: Dict)
    decreases if d in h then h[d].repr else {}
  {
    && d in h && d in h[d].repr
    && (forall k | k in h[d].fields && h[d].fields[k].Leaf? :: !h[d].fields[k].json.Obj?)
    && (forall k | k in h[d].fields && h[d].fields[k].Node? ::
          Inside(h, h[d].fields[k].dict, d) && TreeShaped(h, h[d].fields[k].dict))
    && MembersApart(h, h[d].fields)
  }

  ghost predicate MembersApart(h: Heap, fields: map<string, Value>) {
    && (forall k | k in fields && fields[k].Node? :: fields[k].dict in h)
    && forall k, l | k in fields && l in fields && k != l && fields[k].Node? && fields[l].Node? ::
         h[fields[k].dict].repr !! h[fields[l].dict].repr
  }

  ghost function TreeIn(h: Heap, d: Dict): Json
    requires TreeShaped(h, d)
    decreases h[d].repr
  {
    Obj(map k | k in h[d].fields :: if h[d].fields[k].Leaf? then h[d].fields[k].json
        else TreeIn(h, h[d].fields[k].dict))
  }

  // The dictionary that should hold the last of the parts, if the walk gets there.
  ghost function Walk(h: Heap, d: Dict, parts: seq<string>): Option<Dict>
    requires TreeShaped(h, d) && parts != []
    decreases |parts|
  {
    if |parts| == 1 then Some(d)
    else if parts[0] in h[d].fields && h[d].fields[parts[0]].Node? then Walk(h, h[d].fields[parts[0]].dict, parts[1..])
    else None
  }

  lemma {:induction false} StoppedWalk(h: Heap, d: Dict, parts: seq<string>)
    requires TreeShaped(h, d) && parts != []
    requires match Walk(h, d, parts)
             case None => true
             case Some(last) => last in h && parts[|parts| - 1] !in h[last].fields
    ensures RedactAt(TreeIn(h, d), parts) == TreeIn(h, d)
    decreases |parts|
  {
    var k := parts[0];
    if |parts| > 1 && k in h[d].fields {
      if h[d].fields[k].Node? {
        StoppedWalk(h, h[d].fields[k].dict, parts[1..]);
      }
      assert RedactAt(TreeIn(h, d), parts).fields == TreeIn(h, d).fields;
    }
  }

  lemma {:induction false} WalkStaysInside(h: Heap, d: Dict, parts: seq<string>)
    requires TreeShaped(h, d) && parts != [] && Walk(h, d, parts).Some?
    ensures Walk(h, d, parts).value in h[d].repr && Walk(h, d, parts).value in h
    decreases |parts|
  {
    if |parts| > 1 {
      WalkStaysInside(h, h[d].fields[parts[0]].dict, parts[1..]);
    }
  }

  lemma {:induction false} ElsewhereUnchanged(h: Heap, g: Heap, d: Dict, last: Dict)
    requires TreeShaped(h, d) && last !in h[d].repr
    requires h.Keys == g.Keys && forall e | e in h && e != last :: g[e] == h[e]
    ensures TreeShaped(g, d) && TreeIn(g, d) == TreeIn(h, d)
    decreases h[d].repr
  {
    forall k | k in h[d].fields && h[d].fields[k].Node?
      ensures var e := h[d].fields[k].dict; Inside(g, e, d) && TreeShaped(g, e) && TreeIn(g, e) == TreeIn(h, e)
    {
      ElsewhereUnchanged(h, g, h[d].fields[k].dict, last);
    }
    assert TreeIn(g, d).fields == TreeIn(h, d).fields;
  }

  ghost function Overwritten(h: Heap, last: Dict, leaf: string): Heap
    requires last in h
  {
    h[last := h[last].(fields := h[last].fields[leaf := Leaf(REDACTED)])]
  }

  // g is h with the fields of one dictionary changed.
  ghost predicate OneChanged(h: Heap, g: Heap, last: Dict) {
    && h.Keys == g.Keys && last in h && g[last].repr == h[last].repr
    && forall e | e in h && e != last :: g[e] == h[e]
  }

  lemma StillApart(h: Heap, g: Heap, before: map<string, Value>, after: map<string, Value>, last: Dict)
    requires MembersApart(h, before) && OneChanged(h, g, last)
    requires forall k | k in after && after[k].Node? :: k in before && before[k] == after[k]
    ensures MembersApart(g, after)
  {}

  // The dictionary is still a member of d, and its tree is what it was.
  ghost predicate SameTree(h: Heap, g: Heap, e: Dict, d: Dict) {
    Inside(g, e, d) && TreeShaped(g, e) && TreeShaped(h, e) && TreeIn(g, e) == TreeIn(h, e)
  }

  ghost predicate OthersSame(h: Heap, g: Heap, d: Dict, k: string)
    requires d in h
  {
    forall l | l in h[d].fields && l != k && h[d].fields[l].Node? :: SameTree(h, g, h[d].fields[l].dict, d)
  }

  lemma OthersUnchanged(h: Heap, g: Heap, d: Dict, k: string, last: Dict)
    requires TreeShaped(h, d) && k in h[d].fields && OneChanged(h, g, last)
    requires last == d || (h[d].fields[k].Node? && last in h[h[d].fields[k].dict].repr)
    ensures OthersSame(h, g, d, k)
  {
    forall l | l in h[d].fields && l != k && h[d].fields[l].Node? ensures SameTree(h, g, h[d].fields[l].dict, d) {
      assert Inside(h, h[d].fields[l].dict, d);
      ElsewhereUnchanged(h, g, h[d].fields[l].dict, last);
    }
  }

  lemma StillShaped(h: Heap, g: Heap, d: Dict, k: string, last: Dict)
    requires TreeShaped(h, d) && OneChanged(h, g, last) && OthersSame(h, g, d, k)
    requires k in h[d].fields && k in g[d].fields && g[d].fields == h[d].fields[k := g[d].fields[k]]
    requires g[d].fields[k].Leaf? ==> !g[d].fields[k].json.Obj?
    requires g[d].fields[k].Node? ==> h[d].fields[k] == g[d].fields[k]
    requires g[d].fields[k].Node? ==> Inside(g, g[d].fields[k].dict, d) && TreeShaped(g, g[d].fields[k].dict)
    ensures TreeShaped(g, d)
  {
    StillApart(h, g, h[d].fields, g[d].fields, last);
    assert d in g[d].repr;
  }

  lemma OtherMember(h: Heap, g: Heap, d: Dict, k: string, l: string)
    requires TreeShaped(h, d) && TreeShaped(g, d) && OthersSame(h, g, d, k)
    requires l != k && l in h[d].fields && l in g[d].fields && g[d].fields[l] == h[d].fields[l]
    ensures TreeIn(g, d).fields[l] == TreeIn(h, d).fields[l]
  {
    if h[d].fields[l].Node? {
      assert SameTree(h, g, h[d].fields[l].dict, d);
    }
  }

  lemma TreeKeys(h: Heap, d: Dict)
    requires TreeShaped(h, d)
    ensures TreeIn(h, d).fields.Keys == h[d].fields.Keys
  {}

  lemma OneDiffers(before: map<string, Json>, after: map<string, Json>, k: string)
    requires k in before && after.Keys == before.Keys && forall l | l in before && l != k :: after[l] == before[l]
    ensures after == before[k := after[k]]
  {}

  lemma MemberReplaced(h: Heap, g: Heap, d: Dict, k: string)
    requires TreeShaped(h, d) && TreeShaped(g, d) && OthersSame(h, g, d, k)
    requires k in h[d].fields && k in g[d].fields && g[d].fields == h[d].fields[k := g[d].fields[k]]
    ensures k in TreeIn(h, d).fields && k in TreeIn(g, d).fields
    ensures TreeIn(g, d).fields == TreeIn(h, d).fields[k := TreeIn(g, d).fields[k]]
  {
    TreeKeys(h, d);
    TreeKeys(g, d);
    var before, after := TreeIn(h, d).fields, TreeIn(g, d).fields;
    forall l | l in before && l != k ensures after[l] == before[l] {
      OtherMember(h, g, d, k, l);
    }
    OneDiffers(before, after, k);
  }

  lemma LeafOverwrittenHere(h: Heap, d: Dict, leaf: string)
    requires TreeShaped(h, d) && leaf in h[d].fields
    ensures var g := Overwritten(h, d, leaf); TreeShaped(g, d) && TreeIn(g, d) == RedactAt(TreeIn(h, d), [leaf])
  {
    var g := Overwritten(h, d, leaf);
    OthersUnchanged(h, g, d, leaf, d);
    StillShaped(h, g, d, leaf, d);
    MemberReplaced(h, g, d, leaf);
  }

  // A redaction below one member redacts the tree through that member.
  lemma MemberRedacted(h: Heap, g: Heap, d: Dict, parts: seq<string>, last: Dict)
    requires TreeShaped(h, d) && OneChanged(h, g, last) && |parts| > 1
    requires parts[0] in h[d].fields && h[d].fields[parts[0]].Node?
    requires var e := h[d].fields[parts[0]].dict;
      last in h[e].repr && TreeShaped(g, e) && TreeIn(g, e) == RedactAt(TreeIn(h, e), parts[1..])
    ensures TreeShaped(g, d) && TreeIn(g, d) == RedactAt(TreeIn(h, d), parts)
  {
    assert Inside(h, h[d].fields[parts[0]].dict, d);
    OthersUnchanged(h, g, d, parts[0], last);
    StillShaped(h, g, d, parts[0], last);
    MemberReplaced(h, g, d, parts[0]);
  }

  // Overwriting the leaf where the walk ends redacts the whole tree at the path.
  lemma {:induction false} LeafOverwritten(h: Heap, d: Dict, parts: seq<string>, last: Dict)
    requires TreeShaped(h, d) && parts != [] && Walk(h, d, parts) == Some(last)
    requires last in h && parts[|parts| - 1] in h[last].fields
    ensures var g := Overwritten(h, last, parts[|parts| - 1]);
      TreeShaped(g, d) && TreeIn(g, d) == RedactAt(TreeIn(h, d), parts)
    decreases |parts|
  {
    if |parts| == 1 {
      LeafOverwrittenHere(h, d, parts[0]);
      assert parts == [parts[0]];
    } else {
      var e := h[d].fields[parts[0]].dict;
      WalkStaysInside(h, e, parts[1..]);
      LeafOverwritten(h, e, parts[1..], last);
      MemberRedacted(h, Overwritten(h, last, parts[|parts| - 1]), d, parts, last);
    }
  }

  lemma WalkNext(h: Heap, d: Dict, parts: seq<string>, i: nat)
    requires TreeShaped(h, d) && i < |parts| - 1
    ensures Walk(h, d, parts[i..]) == if parts[i] in h[d].fields && h[d].fields[parts[i]].Node?
                                      then Walk(h, h[d].fields[parts[i]].dict, parts[i + 1..]) else None
  {
    assert parts[i..][1..] == parts[i + 1..];
  }

  // The cursor's walk down to the dictionary that should hold the leaf.
  method WalkTo(root: Dict, parts: seq<string>) returns (holder: Option<Dict>)
    requires root.Valid() && parts != []
    ensures holder == Walk(Snapshot(root.repr), root, parts)
  {
    var cur := root;
    ghost var h := Snapshot(root.repr);
    var i := 0;
    while i < |parts| - 1
      invariant 0 <= i < |parts|
      invariant TreeShaped(h, cur) && Walk(h, root, parts) == Walk(h, cur, parts[i..])
    {
      WalkNext(h, cur, parts, i);
      if parts[i] !in cur.fields {
        return None;
      }
      match cur.fields[parts[i]] {
        case Leaf(_) => return None;
        case Node(d) => cur := d;
      }
      i := i + 1;
    }
    holder := Some(cur);
  }

  method RedactAtPath(root: Dict, dottedPath: string)
    requires root.Valid()
    modifies root.repr
    ensures root.Valid() && root.Tree() == RedactAt(old(root.Tree()), Split(dottedPath))
    ensures root.repr == old(root.repr)
  {
    var parts := Split(dottedPath);
    ghost var h := Snapshot(root.repr);
    var holder := WalkTo(root, parts);
    if holder.None? {
      StoppedWalk(h, root, parts);
      return;
    }
    WalkStaysInside(h, root, parts);
    if parts[|parts| - 1] in holder.value.fields {
      LeafOverwritten(h, root, parts, holder.value);
      OverwriteLeaf(holder.value, parts[|parts| - 1], root.repr);
    } else {
      StoppedWalk(h, root, parts);
    }
  }

  method OverwriteLeaf(holder: Dict, leaf: string, ghost dicts: set<Dict>)
    requires holder in dicts
    modifies holder`fields
    ensures Snapshot(dicts) == Overwritten(old(Snapshot(dicts)), holder, leaf)
  {
    holder.fields := holder.fields[leaf := Leaf(REDACTED)];
  }

  lemma SplitPathsGrow(secret: set<string>, path: string)
    ensures SplitPaths(secret + {path}) == SplitPaths(secret) + {Split(path)}
  {}

  // The loop over the forwarder's set of paths, in whatever order the set yields them.
  method RedactFields(fields: Dict, secretFieldPaths: set<string>)
    requires fields.Valid()
    modifies fields.repr
    ensures fields.Valid() && fields.Tree() == RedactTree(old(fields.Tree()), SplitPaths(secretFieldPaths))
  {
    var todo := secretFieldPaths;
    ghost var done: set<string>, given := {}, fields.Tree();
    RedactNothing(given);
    assert SplitPaths(done) == {};
    while todo != {}
      invariant done + todo == secretFieldPaths
      invariant fields.Valid() && fields.repr == old(fields.repr)
      invariant fields.Tree() == RedactTree(given, SplitPaths(done))
    {
      var path :| path in todo;
      RedactAtPath(fields, path);
      RedactOneMore(given, SplitPaths(done), Split(path));
      SplitPathsGrow(done, path);
      todo := todo - {path};
      done := done + {path};
    }
    assert done == secretFieldPaths;
  }
}
