/** Dumping only the subtrees that start on one source line. A traversal
    checks every node in document order; a node whose start offset falls on
    the line is dumped whole (from depth zero, with no label) and its
    subtree is not searched further; any other node is searched through its
    children. */
module LineSelection {
  import opened Wrappers
  import opened IrTree
  import opened DumpIrTree

  /** The source line to look for: the line-number table of the file's
      entry, the entry, and the wanted line. */
  datatype LineQuery = LineQuery(getLineNumber: (FileEntry, int) -> int, fileEntry: FileEntry, lineNumber: int)

  predicate StartsOnLine(q: LineQuery, e: Element)
  {
    q.getLineNumber(q.fileEntry, e.startOffset) == q.lineNumber
  }

  /** What the traversal prints for `e`. */
  function Select(q: LineQuery, r: Renderer, e: Element): (lines: seq<Line>)
    ensures StartsOnLine(q, e) ==> |lines| >= 1 && lines[0] == Line(0, r.element(e))
    ensures !StartsOnLine(q, e) && Children(e) == [] ==> lines == []
    decreases e, 1
  {
    if StartsOnLine(q, e) then Dump(r, e, "", 0) else SelectChildren(q, r, e, |Children(e)|)
  }

  /** What the traversal prints for the first `n` children of `e`. */
  function SelectChildren(q: LineQuery, r: Renderer, e: Element, n: nat): seq<Line>
    requires n <= |Children(e)|
    decreases e, 0, n
  {
    if n == 0 then [] else SelectChildren(q, r, e, n - 1) + Select(q, r, Children(e)[n - 1])
  }

  // ---------------------------------------------------------------------
  // The same output described by positions in the tree.

  /** The node at `p` starts on the line. */
  predicate StartsOnLineAt(q: LineQuery, e: Element, p: Path)
  {
    At(e, p).Some? && StartsOnLine(q, At(e, p).value)
  }

  /** The node at `p` is reported: it starts on the line and no node above
      it on the way from `e` does. */
  predicate Reported(q: LineQuery, e: Element, p: Path)
  {
    StartsOnLineAt(q, e, p) && forall k :: 0 <= k < |p| ==> !StartsOnLineAt(q, e, p[..k])
  }

  /** Every path of `ps`, one step further down through child `i`. */
  function Through(i: nat, ps: seq<Path>): (r: seq<Path>)
    ensures |r| == |ps|
  {
    seq(|ps|, j requires 0 <= j < |ps| => [i] + ps[j])
  }

  /** The paths of the reported nodes, in document order. */
  function MatchPaths(q: LineQuery, e: Element): seq<Path>
    decreases e, 1
  {
    if StartsOnLine(q, e) then [[]] else ChildMatchPaths(q, e, |Children(e)|)
  }

  /** The paths of the nodes reported below the first `n` children of `e`. */
  function ChildMatchPaths(q: LineQuery, e: Element, n: nat): seq<Path>
    requires n <= |Children(e)|
    decreases e, 0, n
  {
    if n == 0 then [] else ChildMatchPaths(q, e, n - 1) + Through(n - 1, MatchPaths(q, Children(e)[n - 1]))
  }

  /** What dumping the node at `p` from depth zero prints; nothing when there is no node there. */
  function DumpAtPath(r: Renderer, e: Element, p: Path): seq<Line>
  {
    match At(e, p)
    case None => []
    case Some(n) => Dump(r, n, "", 0)
  }

  /** The dumps of the nodes at `ps`, one after the other. */
  function DumpPaths(r: Renderer, e: Element, ps: seq<Path>): seq<Line>
  {
    if ps == [] then [] else DumpPaths(r, e, ps[..|ps| - 1]) + DumpAtPath(r, e, ps[|ps| - 1])
  }

  // ---------------------------------------------------------------------
  // Properties.

  /** A path through child `i` leads where the rest of it leads from that child. */
  lemma AtChild(e: Element, i: nat, p: Path)
    requires i < |Children(e)|
    ensures At(e, [i] + p) == At(Children(e)[i], p)
  {
    assert ([i] + p)[0] == i && ([i] + p)[1..] == p;
  }

  lemma {:induction false} DumpPathsAppend(r: Renderer, e: Element, a: seq<Path>, b: seq<Path>)
    ensures DumpPaths(r, e, a + b) == DumpPaths(r, e, a) + DumpPaths(r, e, b)
    decreases |b|
  {
    if b == [] {
      assert a + b == a;
    } else {
      var b' := b[..|b| - 1];
      assert (a + b)[..|a + b| - 1] == a + b';
      assert (a + b)[|a + b| - 1] == b[|b| - 1];
      DumpPathsAppend(r, e, a, b');
      AppendAssoc(DumpPaths(r, e, a), DumpPaths(r, e, b'), DumpAtPath(r, e, b[|b| - 1]));
    }
  }

  /** Dumping paths through child `i` is dumping the same paths from that child. */
  lemma {:induction false} DumpPathsThrough(r: Renderer, e: Element, i: nat, ps: seq<Path>)
    requires i < |Children(e)|
    ensures DumpPaths(r, e, Through(i, ps)) == DumpPaths(r, Children(e)[i], ps)
    decreases |ps|
  {
    if ps != [] {
      var ps', last := ps[..|ps| - 1], ps[|ps| - 1];
      var through := Through(i, ps);
      assert through[..|ps| - 1] == Through(i, ps');
      assert through[|ps| - 1] == [i] + last;
      AtChild(e, i, last);
      assert DumpAtPath(r, e, [i] + last) == DumpAtPath(r, Children(e)[i], last);
      DumpPathsThrough(r, e, i, ps');
      assert DumpPaths(r, e, through) == DumpPaths(r, e, Through(i, ps')) + DumpAtPath(r, e, [i] + last);
    }
  }

  /** The traversal prints exactly the dumps of the reported nodes, in document order. */
  lemma {:induction false} SelectByPaths(q: LineQuery, r: Renderer, e: Element)
    ensures Select(q, r, e) == DumpPaths(r, e, MatchPaths(q, e))
    decreases e, 1
  {
    if StartsOnLine(q, e) {
      var ps: seq<Path> := [[]];
      assert ps[..0] == [];
      assert At(e, []) == Some(e);
    } else {
      SelectChildrenByPaths(q, r, e, |Children(e)|);
    }
  }

  lemma SelectChildrenStep(q: LineQuery, r: Renderer, e: Element, m: nat)
    requires m < |Children(e)|
    ensures SelectChildren(q, r, e, m + 1) == SelectChildren(q, r, e, m) + Select(q, r, Children(e)[m])
  {
  }

  lemma ChildMatchPathsStep(q: LineQuery, e: Element, m: nat)
    requires m < |Children(e)|
    ensures ChildMatchPaths(q, e, m + 1) == ChildMatchPaths(q, e, m) + Through(m, MatchPaths(q, Children(e)[m]))
  {
  }

  lemma {:induction false} SelectChildrenByPaths(q: LineQuery, r: Renderer, e: Element, n: nat)
    requires n <= |Children(e)|
    ensures SelectChildren(q, r, e, n) == DumpPaths(r, e, ChildMatchPaths(q, e, n))
    decreases e, 0, n
  {
    if n > 0 {
      var m := n - 1;
      var c := Children(e)[m];
      var before, here := ChildMatchPaths(q, e, m), Through(m, MatchPaths(q, c));
      var a, b := SelectChildren(q, r, e, m), Select(q, r, c);
      SelectChildrenByPaths(q, r, e, m);
      SelectByPaths(q, r, c);
      DumpPathsThrough(r, e, m, MatchPaths(q, c));
      DumpPathsAppend(r, e, before, here);
      SelectChildrenStep(q, r, e, m);
      ChildMatchPathsStep(q, e, m);
      assert a == DumpPaths(r, e, before);
      assert b == DumpPaths(r, e, here);
    }
  }

  lemma ThroughMembers(i: nat, ps: seq<Path>, p: Path)
    ensures p in Through(i, ps) <==> |p| > 0 && p[0] == i && p[1..] in ps
  {
    if |p| > 0 && p[0] == i && p[1..] in ps {
      var j :| 0 <= j < |ps| && ps[j] == p[1..];
      assert Through(i, ps)[j] == p;
    }
  }

  lemma {:induction false} ChildMatchPathsMembers(q: LineQuery, e: Element, n: nat, p: Path)
    requires n <= |Children(e)|
    ensures p in ChildMatchPaths(q, e, n) <==> |p| > 0 && p[0] < n && p[1..] in MatchPaths(q, Children(e)[p[0]])
    decreases n
  {
    if n > 0 {
      ChildMatchPathsMembers(q, e, n - 1, p);
      ThroughMembers(n - 1, MatchPaths(q, Children(e)[n - 1]), p);
    }
  }

  /** A path through child `i` is reported from `e` exactly when `e` itself
      does not start on the line and the rest of the path is reported from
      the child. */
  lemma ReportedThroughChild(q: LineQuery, e: Element, i: nat, p: Path)
    requires i < |Children(e)|
    ensures Reported(q, e, [i] + p) <==> !StartsOnLine(q, e) && Reported(q, Children(e)[i], p)
  {
    var c, ip := Children(e)[i], [i] + p;
    AtChild(e, i, p);
    assert ip[..0] == [] && At(e, []) == Some(e);
    forall k | 0 <= k < |p|
      ensures StartsOnLineAt(q, e, ip[..k + 1]) == StartsOnLineAt(q, c, p[..k])
    {
      assert ip[..k + 1] == [i] + p[..k];
      AtChild(e, i, p[..k]);
    }
    if Reported(q, e, ip) {
      forall k | 0 <= k < |p|
        ensures !StartsOnLineAt(q, c, p[..k])
      {
        assert !StartsOnLineAt(q, e, ip[..k + 1]);
      }
    }
    if !StartsOnLine(q, e) && Reported(q, c, p) {
      forall k | 0 <= k < |ip|
        ensures !StartsOnLineAt(q, e, ip[..k])
      {
        if k > 0 {
          assert !StartsOnLineAt(q, c, p[..k - 1]);
        }
      }
    }
  }

  /** The reference paths are exactly the reported nodes: those that start
      on the line with no node above them that does. */
  lemma {:induction false} MatchPathsExactly(q: LineQuery, e: Element, p: Path)
    ensures p in MatchPaths(q, e) <==> Reported(q, e, p)
    decreases e
  {
    assert At(e, []) == Some(e);
    if StartsOnLine(q, e) {
      if p != [] {
        assert p[..0] == [];
      }
    } else {
      ChildMatchPathsMembers(q, e, |Children(e)|, p);
      if |p| > 0 && p[0] < |Children(e)| {
        assert p == [p[0]] + p[1..];
        MatchPathsExactly(q, Children(e)[p[0]], p[1..]);
        ReportedThroughChild(q, e, p[0], p[1..]);
      } else if |p| > 0 {
        assert At(e, p) == None;
      }
    }
  }

  /** `p` comes before `p'` in document order: where the two paths first
      part, `p` goes down an earlier child. */
  predicate Precedes(p: Path, p': Path)
  {
    exists k :: 0 <= k < |p| && k < |p'| && p[..k] == p'[..k] && p[k] < p'[k]
  }

  /** Each path of `ps` comes before every later one. */
  predicate InDocumentOrder(ps: seq<Path>)
  {
    forall i, j :: 0 <= i < j < |ps| ==> Precedes(ps[i], ps[j])
  }

  /** Going one step further down through the same child keeps the order. */
  lemma ThroughOrdered(i: nat, ps: seq<Path>)
    requires InDocumentOrder(ps)
    ensures InDocumentOrder(Through(i, ps))
  {
    var t := Through(i, ps);
    forall a, b | 0 <= a < b < |t|
      ensures Precedes(t[a], t[b])
    {
      var k :| 0 <= k < |ps[a]| && k < |ps[b]| && ps[a][..k] == ps[b][..k] && ps[a][k] < ps[b][k];
      assert t[a][..k + 1] == [i] + ps[a][..k];
      assert t[b][..k + 1] == [i] + ps[b][..k];
      assert t[a][k + 1] == ps[a][k] && t[b][k + 1] == ps[b][k];
    }
  }

  /** Two ordered lists, each of whose paths comes before all of the
      second's, make an ordered list. */
  lemma AppendOrdered(a: seq<Path>, b: seq<Path>)
    requires InDocumentOrder(a) && InDocumentOrder(b)
    requires forall x, y :: x in a && y in b ==> Precedes(x, y)
    ensures InDocumentOrder(a + b)
  {
    forall i, j | 0 <= i < j < |a + b|
      ensures Precedes((a + b)[i], (a + b)[j])
    {
      if j < |a| {
        assert (a + b)[i] == a[i] && (a + b)[j] == a[j];
      } else if i >= |a| {
        assert (a + b)[i] == b[i - |a|] && (a + b)[j] == b[j - |a|];
      } else {
        assert (a + b)[i] == a[i] && (a + b)[j] == b[j - |a|];
        assert a[i] in a && b[j - |a|] in b;
      }
    }
  }

  /** The reported paths are listed in document order. */
  lemma {:induction false} MatchPathsOrdered(q: LineQuery, e: Element)
    ensures InDocumentOrder(MatchPaths(q, e))
    decreases e, 1
  {
    if !StartsOnLine(q, e) {
      ChildMatchPathsOrdered(q, e, |Children(e)|);
    }
  }

  /** The paths reported below the first `n` children are listed in document order. */
  lemma {:induction false} ChildMatchPathsOrdered(q: LineQuery, e: Element, n: nat)
    requires n <= |Children(e)|
    ensures InDocumentOrder(ChildMatchPaths(q, e, n))
    decreases e, 0, n
  {
    if n > 0 {
      var m := n - 1;
      var c := Children(e)[m];
      var before, here := ChildMatchPaths(q, e, m), Through(m, MatchPaths(q, c));
      ChildMatchPathsOrdered(q, e, m);
      MatchPathsOrdered(q, c);
      ThroughOrdered(m, MatchPaths(q, c));
      forall x, y | x in before && y in here
        ensures Precedes(x, y)
      {
        ChildMatchPathsMembers(q, e, m, x);
        ThroughMembers(m, MatchPaths(q, c), y);
        assert x[..0] == y[..0];
      }
      AppendOrdered(before, here);
      ChildMatchPathsStep(q, e, m);
    }
  }

  /** The traversal reports each node at most once, in document order:
      its output is the dumps of the reported nodes, those are listed in
      document order, and no path is listed twice. */
  lemma SelectInDocumentOrder(q: LineQuery, r: Renderer, e: Element)
    ensures Select(q, r, e) == DumpPaths(r, e, MatchPaths(q, e))
    ensures InDocumentOrder(MatchPaths(q, e))
    ensures forall i, j :: 0 <= i < j < |MatchPaths(q, e)| ==> MatchPaths(q, e)[i] != MatchPaths(q, e)[j]
  {
    SelectByPaths(q, r, e);
    MatchPathsOrdered(q, e);
  }

  /** With no node on the line, the traversal prints nothing. */
  lemma NoMatchNoOutput(q: LineQuery, r: Renderer, e: Element)
    requires forall p: Path :: !Reported(q, e, p)
    ensures Select(q, r, e) == []
  {
    SelectByPaths(q, r, e);
    var ps := MatchPaths(q, e);
    if ps != [] {
      MatchPathsExactly(q, e, ps[0]);
      assert false;
    }
  }

  /** A reported node has no reported node above it: matched subtrees are
      never searched. */
  lemma NoNestedReports(q: LineQuery, e: Element, p: Path, p': Path)
    requires Reported(q, e, p) && Reported(q, e, p')
    ensures |p| < |p'| ==> p'[..|p|] != p
  {
  }
}
