/**
 A conversation is a map of nodes with parent links; rendering walks from the current node up and prints downwards.
 */
module Conversation {
  import opened Basics
  import opened JsonValues

  datatype Message = Message(id: string, role: string, createTime: Option<Double>, parts: Option<seq<Json>>,
                             status: Option<string>)

  datatype Node = Node(id: string, message: Option<Message>, parent: Option<string>, children: seq<string>)

  type Mapping = map<string, Node>

  datatype Detail = Detail(id: string, title: Option<string>, createTime: Option<Double>, updateTime: Option<Double>,
                           mapping: Option<Mapping>, currentNode: Option<string>)

  // ---------------------------------------------------------------- the walk upwards

  /** The node a link leads to, if the map has it. */
  function Present(m: Mapping, link: Option<string>): Option<string> {
    if link.Some? && link.value in m then link else None
  }

  /** The id visited at step `k` of the walk from `current`, if the walk gets that far. */
  function Visit(m: Mapping, current: string, k: nat): (id: Option<string>)
    ensures id.Some? ==> id.value in m
  {
    if k == 0 then Present(m, Some(current))
    else
      match Visit(m, current, k - 1)
      case None => None
      case Some(below) => Present(m, m[below].parent)
  }

  ghost predicate Ends(m: Mapping, current: string) {
    exists k: nat :: Visit(m, current, k) == None
  }

  ghost predicate Revisits(m: Mapping, current: string) {
    exists i: nat, j: nat :: i < j && Visit(m, current, i).Some? && Visit(m, current, i) == Visit(m, current, j)
  }

  lemma {:induction false} EndIsFinal(m: Mapping, current: string, k: nat, n: nat)
    requires k <= n && Visit(m, current, k) == None
    ensures Visit(m, current, n) == None
    decreases n
  {
    if k < n {
      EndIsFinal(m, current, k, n - 1);
    }
  }

  /** From a revisited node on, the walk repeats itself. */
  lemma {:induction false} Repeats(m: Mapping, current: string, i: nat, j: nat, t: nat)
    requires Visit(m, current, i) == Visit(m, current, j)
    ensures Visit(m, current, i + t) == Visit(m, current, j + t)
  {
    if t > 0 {
      Repeats(m, current, i, j, t - 1);
    }
  }

  lemma {:induction false} CycleNeverEnds(m: Mapping, current: string, i: nat, j: nat, n: nat)
    requires i < j && Visit(m, current, i).Some? && Visit(m, current, i) == Visit(m, current, j)
    ensures Visit(m, current, n).Some?
  {
    if n <= j {
      if Visit(m, current, n) == None {
        EndIsFinal(m, current, n, j);
      }
    } else {
      CycleNeverEnds(m, current, i, j, n - (j - i));
      Repeats(m, current, i, j, n - j);
    }
  }

  /** The ids of the first `n` steps. */
  function Visited(m: Mapping, current: string, n: nat): set<string> {
    if n == 0 then {}
    else
      var id := Visit(m, current, n - 1);
      Visited(m, current, n - 1) + if id.Some? then {id.value} else {}
  }

  lemma {:induction false} VisitedMembers(m: Mapping, current: string, n: nat, id: string)
    ensures id in Visited(m, current, n) ==> id in m && exists k: nat :: k < n && Visit(m, current, k) == Some(id)
  {
    if n > 0 {
      VisitedMembers(m, current, n - 1, id);
    }
  }

  /** Pigeonhole: a walk without a revisit fits into the map. */
  lemma {:induction false} DistinctVisits(m: Mapping, current: string, n: nat)
    requires !Revisits(m, current) && (n > 0 ==> Visit(m, current, n - 1).Some?)
    ensures |Visited(m, current, n)| == n <= |m|
  {
    if n > 0 {
      DistinctVisits(m, current, n - 1);
      VisitedMembers(m, current, n - 1, Visit(m, current, n - 1).value);
      assert Visit(m, current, n - 1).value !in Visited(m, current, n - 1);
    }
    forall id | id in Visited(m, current, n) ensures id in m.Keys {
      VisitedMembers(m, current, n, id);
    }
    SubsetIsSmaller(Visited(m, current, n), m.Keys);
    assert |m.Keys| == |m|;
  }

  lemma {:induction false} SubsetIsSmaller<T>(a: set<T>, b: set<T>)
    requires a <= b
    ensures |a| <= |b|
  {
    if a != {} {
      var x :| x in a;
      SubsetIsSmaller(a - {x}, b - {x});
    }
  }

  /** The walk ends exactly when it revisits no node, and then within as many steps as the map has nodes. */
  lemma EndsIffNoRevisit(m: Mapping, current: string)
    ensures Ends(m, current) <==> !Revisits(m, current)
    ensures Ends(m, current) ==> Visit(m, current, |m|) == None
  {
    if Revisits(m, current) {
      var i: nat, j: nat :| i < j && Visit(m, current, i).Some? && Visit(m, current, i) == Visit(m, current, j);
      forall k: nat ensures Visit(m, current, k).Some? {
        CycleNeverEnds(m, current, i, j, k);
      }
    } else if Visit(m, current, |m|).Some? {
      DistinctVisits(m, current, |m| + 1);
      assert false;
    }
  }

  /** A walk that runs for ever: the current node is its own parent. */
  lemma OwnParentNeverEnds(node: Node)
    requires node.parent == Some("a")
    ensures !Ends(map["a" := node], "a")
  {
    var m := map["a" := node];
    assert Visit(m, "a", 0) == Visit(m, "a", 1) == Some("a");
    EndsIffNoRevisit(m, "a");
  }

  // ---------------------------------------------------------------- the chain

  /** `ids` leads from a root down to `current`, link by link. */
  ghost predicate RootChain(m: Mapping, ids: seq<string>, current: string) {
    && (forall i :: 0 <= i < |ids| ==> ids[i] in m)
    && (ids == [] <==> current !in m)
    && (ids != [] ==> Last(ids) == current && Present(m, m[ids[0]].parent) == None)
    && (forall i :: 0 < i < |ids| ==> m[ids[i]].parent == Some(ids[i - 1]))
  }

  lemma {:induction false} ChainIsVisits(m: Mapping, ids: seq<string>, current: string, k: nat)
    requires RootChain(m, ids, current) && k <= |ids|
    ensures Visit(m, current, k) == if k < |ids| then Some(ids[|ids| - 1 - k]) else None
  {
    if k > 0 {
      ChainIsVisits(m, ids, current, k - 1);
    }
  }

  lemma ChainIsUnique(m: Mapping, a: seq<string>, b: seq<string>, current: string)
    requires RootChain(m, a, current) && RootChain(m, b, current)
    ensures a == b
  {
    if |a| < |b| {
      ChainIsVisits(m, a, current, |a|);
      ChainIsVisits(m, b, current, |a|);
    } else if |b| < |a| {
      ChainIsVisits(m, a, current, |b|);
      ChainIsVisits(m, b, current, |b|);
    } else {
      forall i | 0 <= i < |a| ensures a[i] == b[i] {
        ChainIsVisits(m, a, current, |a| - 1 - i);
        ChainIsVisits(m, b, current, |a| - 1 - i);
      }
    }
  }

  /** A root-to-current chain never repeats a node and is no longer than the map; a walk with one ends. */
  lemma ChainIsSimple(m: Mapping, ids: seq<string>, current: string)
    requires RootChain(m, ids, current)
    ensures forall i, j :: 0 <= i < j < |ids| ==> ids[i] != ids[j]
    ensures |ids| <= |m| && Ends(m, current)
  {
    ChainIsVisits(m, ids, current, |ids|);
    EndsIffNoRevisit(m, current);
    forall i, j | 0 <= i < j < |ids| ensures ids[i] != ids[j] {
      ChainIsVisits(m, ids, current, |ids| - 1 - i);
      ChainIsVisits(m, ids, current, |ids| - 1 - j);
    }
    if ids != [] {
      ChainIsVisits(m, ids, current, |ids| - 1);
      DistinctVisits(m, current, |ids|);
    }
  }

  function Reversed<T>(s: seq<T>): (r: seq<T>)
    ensures |r| == |s| && forall i :: 0 <= i < |s| ==> r[i] == s[|s| - 1 - i]
  {
    if s == [] then [] else [Last(s)] + Reversed(s[..|s| - 1])
  }

  /** `up` are the ids of the first steps, each the parent of the one before. */
  ghost predicate Climbed(m: Mapping, current: string, up: seq<string>) {
    && (forall i :: 0 <= i < |up| ==> up[i] in m)
    && (up != [] ==> up[0] == current)
    && (forall i :: 0 < i < |up| ==> m[up[i - 1]].parent == Some(up[i]))
  }

  lemma {:induction false} ClimbedIsVisits(m: Mapping, current: string, up: seq<string>, k: nat)
    requires Climbed(m, current, up) && k < |up|
    ensures Visit(m, current, k) == Some(up[k])
  {
    if k > 0 {
      ClimbedIsVisits(m, current, up, k - 1);
    }
  }

  /** The link the walk looks at after the steps `up`. */
  function Link(m: Mapping, current: string, up: seq<string>): Option<string>
    requires forall i :: 0 <= i < |up| ==> up[i] in m
  {
    if up == [] then Some(current) else m[Last(up)].parent
  }

  lemma ClimbOn(m: Mapping, current: string, up: seq<string>, id: string)
    requires Climbed(m, current, up) && Link(m, current, up) == Some(id) && id in m && Ends(m, current)
    ensures Climbed(m, current, up + [id]) && |up| < |m|
  {
    EndsIffNoRevisit(m, current);
    ClimbedIsVisits(m, current, up + [id], |up|);
    DistinctVisits(m, current, |up| + 1);
  }

  ghost predicate NodesAt(m: Mapping, ids: seq<string>, path: seq<Node>) {
    |path| == |ids| && forall i :: 0 <= i < |ids| ==> ids[i] in m && path[i] == m[ids[i]]
  }

  /** The nodes of the root-to-current chain, in order. */
  ghost predicate IsPath(m: Mapping, current: string, path: seq<Node>) {
    exists ids :: RootChain(m, ids, current) && NodesAt(m, ids, path)
  }

  lemma TopReached(m: Mapping, current: string, up: seq<string>, nodes: seq<Node>)
    requires Climbed(m, current, up) && Present(m, Link(m, current, up)) == None && NodesAt(m, up, nodes)
    ensures IsPath(m, current, Reversed(nodes))
  {
    assert RootChain(m, Reversed(up), current);
    assert NodesAt(m, Reversed(up), Reversed(nodes));
  }

  /**
   `walk_to_current`. Its only demand is that the walk ends; then it returns the nodes of the one root-to-current
   chain. On a cycle the loop runs for ever.
   */
  method WalkToCurrent(m: Mapping, current: string) returns (path: seq<Node>)
    requires Ends(m, current)
    ensures IsPath(m, current, path)
  {
    path := [];
    ghost var up: seq<string> := [];
    var id := current;
    while id in m
      invariant Climbed(m, current, up) && Link(m, current, up) == Some(id) && |up| <= |m|
      invariant NodesAt(m, up, path)
      decreases |m| - |up|
    {
      ClimbOn(m, current, up, id);
      path, up := path + [m[id]], up + [id];
      match m[id].parent {
        case Some(p) => id := p;
        case None => break;
      }
    }
    TopReached(m, current, up, path);
    path := Reversed(path);
  }
}
