/** The reject list of an asset and the search for rejected ancestors of an opout. */
module RejectSearch {

  import opened Common
  import opened Assignments

  /** History of opouts: parents[n] lists the nodes that node n was made from. */
  datatype Dag = Dag(nodes: seq<Opout>, parents: seq<seq<nat>>)
  {
    ghost predicate WellFormed()
    {
      && |parents| == |nodes|
      && forall n, q | 0 <= n < |parents| && q in parents[n] :: q < |nodes|
    }
  }

  datatype DagData = DagData(dag: Dag, index: map<Opout, nat>)
  {
    ghost predicate WellFormed()
    {
      dag.WellFormed() && forall o | o in index :: index[o] < |dag.nodes|
    }
  }

  /** The outcome of one download of the list. */
  datatype RejectList = RejectList(reject: set<Opout>, allow: set<Opout>)

  // ---------------------------------------------------------------- specification

  /** A walk from a node towards its ancestors. */
  ghost predicate IsPath(dag: Dag, p: seq<nat>)
  {
    && p != []
    && |dag.parents| == |dag.nodes|
    && (forall i | 0 <= i < |p| :: p[i] < |dag.nodes|)
    && (forall i | 0 <= i < |p| - 1 :: p[i + 1] in dag.parents[p[i]])
  }

  /** A path, possibly of length zero, that ends on a rejected opout and meets no allowed one. */
  ghost predicate Condemns(dag: Dag, l: RejectList, p: seq<nat>)
  {
    && IsPath(dag, p)
    && dag.nodes[p[|p| - 1]] in l.reject
    && forall i | 0 <= i < |p| :: dag.nodes[p[i]] !in l.allow
  }

  ghost predicate TaintedNode(dag: Dag, l: RejectList, n: nat)
  {
    exists p :: Condemns(dag, l, p) && p[0] == n
  }

  ghost predicate Tainted(data: DagData, l: RejectList, o: Opout)
  {
    o in data.index && TaintedNode(data.dag, l, data.index[o])
  }

  /** node is an ancestor of start through nodes that are not allowed (node itself is not judged). */
  ghost predicate Reaches(dag: Dag, l: RejectList, start: nat, node: nat)
  {
    exists p :: ReachesBy(dag, l, p) && p[0] == start && p[|p| - 1] == node
  }

  ghost predicate ReachesBy(dag: Dag, l: RejectList, p: seq<nat>)
  {
    IsPath(dag, p) && forall i | 0 <= i < |p| - 1 :: dag.nodes[p[i]] !in l.allow
  }

  // ---------------------------------------------------------------- the search

  lemma ReachesParent(dag: Dag, l: RejectList, start: nat, node: nat, parent: nat)
    requires dag.WellFormed() && node < |dag.nodes|
    requires Reaches(dag, l, start, node) && dag.nodes[node] !in l.allow
    requires parent in dag.parents[node]
    ensures Reaches(dag, l, start, parent)
  {
    var p :| ReachesBy(dag, l, p) && p[0] == start && p[|p| - 1] == node;
    var q := p + [parent];
    assert ReachesBy(dag, l, q) && q[0] == start && q[|q| - 1] == parent;
  }

  /** A visited set closed under unshielded parents and free of rejected nodes is never condemned. */
  lemma {:induction false} ClosedSetIsClean(dag: Dag, l: RejectList, visited: set<nat>, p: seq<nat>)
    requires p != [] && p[0] in visited
    requires |dag.parents| == |dag.nodes|
    requires forall v | v in visited :: v < |dag.nodes|
    requires forall v | v in visited ::
      dag.nodes[v] in l.allow ||
      (dag.nodes[v] !in l.reject && forall q | q in dag.parents[v] :: q in visited)
    ensures !Condemns(dag, l, p)
  {
    if Condemns(dag, l, p) && |p| > 1 {
      assert p[1] in dag.parents[p[0]];
      ClosedSetIsClean(dag, l, visited, p[1..]);
      assert Condemns(dag, l, p[1..]);
    }
  }

  /** What is visited is judged and not rejected, and its unshielded parents are visited or still to be. */
  ghost predicate Walked(dag: Dag, l: RejectList, visited: set<nat>, stack: seq<nat>)
    requires |dag.parents| == |dag.nodes|
  {
    forall v | v in visited ::
      v < |dag.nodes| &&
      (dag.nodes[v] in l.allow
       || (dag.nodes[v] !in l.reject && forall q | q in dag.parents[v] :: q in visited || q in stack))
  }

  ghost predicate AllReached(dag: Dag, l: RejectList, start: nat, stack: seq<nat>)
  {
    forall v | v in stack :: v < |dag.nodes| && Reaches(dag, l, start, v)
  }

  ghost function Unvisited(dag: Dag, visited: set<nat>): nat
  {
    |set n: nat | n < |dag.nodes| && n !in visited|
  }

  lemma FewerUnvisited(dag: Dag, visited: set<nat>, node: nat)
    requires node < |dag.nodes| && node !in visited
    ensures Unvisited(dag, visited + {node}) < Unvisited(dag, visited)
  {
    var before := set n: nat | n < |dag.nodes| && n !in visited;
    var after := set n: nat | n < |dag.nodes| && n !in visited + {node};
    assert node in before && node !in after;
    SmallerSet(after, before);
  }

  /** A visited or shielded node is dropped from the stack. */
  lemma DropKeepsWalked(dag: Dag, l: RejectList, visited: set<nat>, stack: seq<nat>, node: nat)
    requires dag.WellFormed() && node < |dag.nodes| && Walked(dag, l, visited, stack + [node])
    requires node in visited || dag.nodes[node] in l.allow
    ensures Walked(dag, l, visited + {node}, stack)
  {
  }

  /** Any other one is replaced by its parents. */
  lemma ExpandKeepsWalked(dag: Dag, l: RejectList, visited: set<nat>, stack: seq<nat>, node: nat)
    requires dag.WellFormed() && node < |dag.nodes| && Walked(dag, l, visited, stack + [node])
    requires dag.nodes[node] !in l.reject
    ensures Walked(dag, l, visited + {node}, stack + dag.parents[node])
  {
  }

  lemma ExpandReaches(dag: Dag, l: RejectList, start: nat, stack: seq<nat>, node: nat)
    requires dag.WellFormed() && node < |dag.nodes| && dag.nodes[node] !in l.allow
    requires AllReached(dag, l, start, stack) && Reaches(dag, l, start, node)
    ensures AllReached(dag, l, start, stack + dag.parents[node])
  {
    forall q | q in dag.parents[node]
      ensures q < |dag.nodes| && Reaches(dag, l, start, q)
    {
      ReachesParent(dag, l, start, node, q);
    }
  }

  lemma RejectedIsTainted(dag: Dag, l: RejectList, start: nat, node: nat)
    requires dag.WellFormed() && start < |dag.nodes| && node < |dag.nodes|
    requires Reaches(dag, l, start, node) && dag.nodes[node] !in l.allow && dag.nodes[node] in l.reject
    ensures TaintedNode(dag, l, start)
  {
    var p :| ReachesBy(dag, l, p) && p[0] == start && p[|p| - 1] == node;
    assert Condemns(dag, l, p);
  }

  lemma WalkedIsClean(dag: Dag, l: RejectList, start: nat, visited: set<nat>)
    requires dag.WellFormed() && start < |dag.nodes| && start in visited && Walked(dag, l, visited, [])
    ensures !TaintedNode(dag, l, start)
  {
    forall p | p != [] && p[0] == start
      ensures !Condemns(dag, l, p)
    {
      ClosedSetIsClean(dag, l, visited, p);
    }
  }

  /** Depth-first walk over the ancestors of one opout. */
  method SearchAncestors(dag: Dag, start: nat, l: RejectList) returns (found: bool)
    requires dag.WellFormed() && start < |dag.nodes|
    ensures found <==> TaintedNode(dag, l, start)
  {
    var stack: seq<nat> := [start];
    var visited: set<nat> := {};
    assert ReachesBy(dag, l, [start]);
    while stack != []
      invariant start in visited || start in stack
      invariant AllReached(dag, l, start, stack) && Walked(dag, l, visited, stack)
      decreases Unvisited(dag, visited), |stack|
    {
      var node, rest := stack[|stack| - 1], stack[..|stack| - 1];
      assert stack == rest + [node] && node in stack;
      assert AllReached(dag, l, start, rest) by {
        assert forall v | v in rest :: v in stack;
      }
      stack := rest;
      if node in visited {
        DropKeepsWalked(dag, l, visited, rest, node);
        assert visited + {node} == visited;
        continue;
      }
      FewerUnvisited(dag, visited, node);
      if dag.nodes[node] in l.allow {
        DropKeepsWalked(dag, l, visited, rest, node);
        visited := visited + {node};
        continue;
      }
      if dag.nodes[node] in l.reject {
        RejectedIsTainted(dag, l, start, node);
        return true;
      }
      ExpandKeepsWalked(dag, l, visited, rest, node);
      ExpandReaches(dag, l, start, rest, node);
      visited := visited + {node};
      stack := rest + dag.parents[node];
    }
    WalkedIsClean(dag, l, start, visited);
    return false;
  }

  lemma SmallerSet<T>(a: set<T>, b: set<T>)
    requires a < b
    ensures |a| < |b|
  {
    assert b == a + (b - a);
    assert |b| == |a| + |b - a|;
    assert b - a != {};
  }

  /** The checked opouts to reject: exactly the tainted ones; an opout outside the index is an error. */
  method CheckDag(data: DagData, l: RejectList, check: set<Opout>) returns (r: Result<set<Opout>, Opout>)
    requires data.WellFormed()
    ensures r.Failure? <==> exists o :: o in check && o !in data.index
    ensures r.Failure? ==> r.error in check && r.error !in data.index
    ensures r.Success? ==> forall o :: o in r.value <==> o in check && Tainted(data, l, o)
  {
    var toReject: set<Opout> := {};
    var todo := check;
    while todo != {}
      invariant todo <= check
      invariant forall o | o in check - todo :: o in data.index
      invariant forall o :: o in toReject <==> o in check - todo && Tainted(data, l, o)
      decreases todo
    {
      var o :| o in todo;
      if o !in data.index {
        return Failure(o);
      }
      var found := SearchAncestors(data.dag, data.index[o], l);
      if found {
        toReject := toReject + {o};
      }
      todo := todo - {o};
    }
    return Success(toReject);
  }

  // ---------------------------------------------------------------- the list itself

  /** What one line says: an opout and whether it is allowed ("!") or rejected; None if invalid. */
  function ParseLine(line: string, parse: string -> Option<Opout>): Option<(Opout, bool)>
  {
    var allow := |line| > 0 && line[0] == '!';
    match parse(if allow then line[1..] else line)
    case None => None
    case Some(o) => Some((o, allow))
  }

  /** An exclamation mark before an opout allows it, the bare opout rejects it; a line says nothing else. */
  lemma LinesSay(text: string, parse: string -> Option<Opout>, o: Opout)
    ensures ParseLine("!" + text, parse) == Some((o, true)) <==> parse(text) == Some(o)
    ensures ParseLine("!" + text, parse) != Some((o, false))
    ensures text == "" || text[0] != '!' ==>
      && (ParseLine(text, parse) == Some((o, false)) <==> parse(text) == Some(o))
      && ParseLine(text, parse) != Some((o, true))
  {
    assert ("!" + text)[1..] == text;
  }

  /** Line i is the last one about o, and it says allow (or reject). */
  ghost predicate LastWord(lines: seq<string>, parse: string -> Option<Opout>, i: nat, o: Opout, allow: bool)
  {
    && i < |lines|
    && ParseLine(lines[i], parse) == Some((o, allow))
    && forall j | i < j < |lines| :: !Mentions(lines[j], parse, o)
  }

  ghost predicate Mentions(line: string, parse: string -> Option<Opout>, o: Opout)
  {
    ParseLine(line, parse) == Some((o, true)) || ParseLine(line, parse) == Some((o, false))
  }

  /** opouts records the last word on each opout among the lines, said at line at[o]. */
  ghost predicate Recorded(lines: seq<string>, parse: string -> Option<Opout>, opouts: map<Opout, bool>,
                           at: map<Opout, nat>)
  {
    && at.Keys == opouts.Keys
    && (forall o | o in opouts :: LastWord(lines, parse, at[o], o, opouts[o]))
    && (forall o, j | 0 <= j < |lines| && Mentions(lines[j], parse, o) :: o in opouts)
  }

  lemma RecordLine(lines: seq<string>, line: string, parse: string -> Option<Opout>, opouts: map<Opout, bool>,
                   at: map<Opout, nat>)
    requires Recorded(lines, parse, opouts, at)
    ensures ParseLine(line, parse).None? ==> Recorded(lines + [line], parse, opouts, at)
    ensures ParseLine(line, parse).Some? ==>
      var (o, allow) := ParseLine(line, parse).value;
      Recorded(lines + [line], parse, opouts[o := allow], at[o := |lines|])
  {
  }

  lemma RecordedIsLastWord(lines: seq<string>, parse: string -> Option<Opout>, opouts: map<Opout, bool>,
                           at: map<Opout, nat>, i: nat, o: Opout, allow: bool)
    requires Recorded(lines, parse, opouts, at) && LastWord(lines, parse, i, o, allow)
    ensures o in opouts && opouts[o] == allow
  {
    assert Mentions(lines[i], parse, o);
    assert Mentions(lines[at[o]], parse, o);
  }

  /** The last line about an opout wins, whether it allows or rejects. */
  method GetRejectList(lines: seq<string>, parse: string -> Option<Opout>) returns (l: RejectList)
    ensures l.reject !! l.allow
    ensures forall o :: o in l.allow <==> exists i :: LastWord(lines, parse, i, o, true)
    ensures forall o :: o in l.reject <==> exists i :: LastWord(lines, parse, i, o, false)
  {
    var opouts: map<Opout, bool> := map[];
    ghost var at: map<Opout, nat> := map[];
    for i := 0 to |lines|
      invariant Recorded(lines[..i], parse, opouts, at)
    {
      assert lines[..i + 1] == lines[..i] + [lines[i]];
      RecordLine(lines[..i], lines[i], parse, opouts, at);
      match ParseLine(lines[i], parse)
      case None =>
      case Some((o, allow)) =>
        opouts := opouts[o := allow];
        at := at[o := i];
    }
    assert lines[..|lines|] == lines;
    forall o, i: nat, b | LastWord(lines, parse, i, o, b)
      ensures o in opouts && opouts[o] == b
    {
      RecordedIsLastWord(lines, parse, opouts, at, i, o, b);
    }
    l := RejectList(set o | o in opouts && !opouts[o], set o | o in opouts && opouts[o]);
  }

  /** An allow line always wins over an ancestor's rejection, and more allowing never rejects more. */
  lemma AllowShields(data: DagData, l: RejectList, more: set<Opout>, o: Opout)
    ensures Tainted(data, RejectList(l.reject, l.allow + more), o) ==> Tainted(data, l, o)
    ensures o in data.index && data.index[o] < |data.dag.nodes| && data.dag.nodes[data.index[o]] in more
      ==> !Tainted(data, RejectList(l.reject, l.allow + more), o)
  {
    var l' := RejectList(l.reject, l.allow + more);
    if Tainted(data, l', o) {
      var p :| Condemns(data.dag, l', p) && p[0] == data.index[o];
      assert Condemns(data.dag, l, p);
    }
  }
}
