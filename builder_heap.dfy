/**
 * The builder objects themselves. Every `GraphQLQueryBuilder`, `GraphQLArgumentsBuilder`,
 * `GraphQLVariableBuilder`, `GraphQLSelectBuilder` and `GraphQLFieldBuilder` lives in one arena and is named by
 * its index, so a handle returned by `Var`, `Field` or `Query` is the same object that its owner's list holds:
 * changing it through the handle changes what the owner renders.
 */
module BuilderHeap {
  import opened Text
  import VariableBuilder
  import ArgumentsBuilder
  import SelectBuilder
  import QueryBuilder

  /** A `GraphQLFieldBuilder`: its name and the index of its child selection `_child`. */
  datatype FieldRec = FieldRec(name: string, child: nat)

  /** A `GraphQLArgumentsBuilder`: `_variables` as indices of variable builders, `_params` in insertion order. */
  datatype ArgumentsRec = ArgumentsRec(variables: seq<nat>, params: seq<ArgumentsBuilder.Entry>)

  /** A `GraphQLQueryBuilder`: `_root`, `_objectToQuery`, its `_arguments` and `_select`, `_children` and `_nesting`. */
  datatype NodeRec = NodeRec(root: Option<nat>, name: string, arguments: nat, select: nat, children: seq<nat>, nesting: nat)

  /** Every builder object there is, each kind in creation order. */
  datatype Arena = Arena(
    variables: seq<VariableBuilder.Variable>,
    argumentSets: seq<ArgumentsRec>,
    fields: seq<FieldRec>,
    selections: seq<seq<nat>>,
    nodes: seq<NodeRec>)

  /** An arena with no object in it. */
  function EmptyArena(): (a: Arena)
    ensures Valid(a)
  {
    Arena([], [], [], [], [])
  }

  predicate ArgumentsOk(a: Arena)
  {
    forall x, i :: 0 <= x < |a.argumentSets| && 0 <= i < |a.argumentSets[x].variables| ==> a.argumentSets[x].variables[i] < |a.variables|
  }

  /** The keys of every argument set's `_params` are distinct, as a dictionary's are. */
  predicate ParamsOk(a: Arena)
  {
    forall x :: 0 <= x < |a.argumentSets| ==> ArgumentsBuilder.UniqueKeys(a.argumentSets[x].params)
  }

  /** Every selection lists existing fields, and a field's child selection was made after the selection holding the field. */
  predicate SelectionsOk(a: Arena)
  {
    forall s, i :: 0 <= s < |a.selections| && 0 <= i < |a.selections[s]| ==>
      a.selections[s][i] < |a.fields| && s < a.fields[a.selections[s][i]].child < |a.selections|
  }

  /** `_root ?? this`: the root a node's `Build` delegates to. */
  function Top(a: Arena, q: nat): (r: nat)
    requires q < |a.nodes|
    ensures a.nodes[q].root.None? ==> r == q
    ensures a.nodes[q].root.Some? ==> r == a.nodes[q].root.value
  {
    match a.nodes[q].root
    case None => q
    case Some(r) => r
  }

  /**
   * A child was made after its parent, one level deeper, and points at the parent's root; a root has nesting 0
   * and every root link points at an earlier node that is itself a root.
   */
  predicate NodeOk(a: Arena, q: nat)
    requires q < |a.nodes|
  {
    && a.nodes[q].arguments < |a.argumentSets|
    && a.nodes[q].select < |a.selections|
    && (a.nodes[q].root.None? ==> a.nodes[q].nesting == 0)
    && (a.nodes[q].root.Some? ==> a.nodes[q].root.value < q && a.nodes[a.nodes[q].root.value].root.None?)
    && forall i :: 0 <= i < |a.nodes[q].children| ==> ChildOk(a, q, a.nodes[q].children[i])
  }

  predicate ChildOk(a: Arena, q: nat, c: nat)
    requires q < |a.nodes|
  {
    q < c < |a.nodes| && a.nodes[c].nesting == a.nodes[q].nesting + 1 && a.nodes[c].root == Some(Top(a, q))
  }

  predicate NodesOk(a: Arena)
  {
    forall q :: 0 <= q < |a.nodes| ==> NodeOk(a, q)
  }

  /** The invariant every operation keeps. */
  predicate Valid(a: Arena)
  {
    ArgumentsOk(a) && ParamsOk(a) && SelectionsOk(a) && NodesOk(a)
  }

  // ---------------------------------------------------------------------------------------------------------------
  // What an object renders as: the value the serialiser reads through it.

  function VariablesOf(a: Arena, ids: seq<nat>): (r: seq<VariableBuilder.Variable>)
    requires forall i :: 0 <= i < |ids| ==> ids[i] < |a.variables|
    ensures |r| == |ids| && forall i :: 0 <= i < |ids| ==> r[i] == a.variables[ids[i]]
  {
    seq(|ids|, i requires 0 <= i < |ids| => a.variables[ids[i]])
  }

  function ArgumentsOf(a: Arena, x: nat): ArgumentsBuilder.Arguments
    requires ArgumentsOk(a) && x < |a.argumentSets|
  {
    ArgumentsBuilder.Arguments(VariablesOf(a, a.argumentSets[x].variables), a.argumentSets[x].params)
  }

  function SelectionOf(a: Arena, s: nat): SelectBuilder.Selection
    requires SelectionsOk(a) && s < |a.selections|
    decreases |a.selections| - s, 1
  {
    SelectBuilder.Selection(FieldsOf(a, s, a.selections[s]))
  }

  /** The fields `ids` of selection `s`, each with its child selection. */
  function FieldsOf(a: Arena, s: nat, ids: seq<nat>): (r: seq<SelectBuilder.Field>)
    requires SelectionsOk(a) && s < |a.selections|
    requires forall i :: 0 <= i < |ids| ==> ids[i] < |a.fields| && s < a.fields[ids[i]].child < |a.selections|
    ensures |r| == |ids|
    decreases |a.selections| - s, 0, |ids|
  {
    if ids == [] then []
    else [SelectBuilder.Field(a.fields[ids[0]].name, SelectionOf(a, a.fields[ids[0]].child))] + FieldsOf(a, s, ids[1..])
  }

  function NodeOf(a: Arena, q: nat): QueryBuilder.Node
    requires Valid(a) && q < |a.nodes|
    decreases |a.nodes| - q, 1
  {
    assert NodeOk(a, q);
    var n := a.nodes[q];
    QueryBuilder.Node(n.name, ArgumentsOf(a, n.arguments), SelectionOf(a, n.select), NodesOf(a, q, n.children), n.nesting)
  }

  /** The children `ids` of node `q`. */
  function NodesOf(a: Arena, q: nat, ids: seq<nat>): (r: seq<QueryBuilder.Node>)
    requires Valid(a) && q < |a.nodes|
    requires forall i :: 0 <= i < |ids| ==> q < ids[i] < |a.nodes|
    ensures |r| == |ids|
    decreases |a.nodes| - q, 0, |ids|
  {
    if ids == [] then [] else [NodeOf(a, ids[0])] + NodesOf(a, q, ids[1..])
  }

  /**
   * `Build(formatting)` on node `q`: the root's document as the code writes it, whichever node of the tree is
   * asked. Without layout it is always the root's skeleton; when no node of the tree has both fields and
   * children it is also exactly the intended document of the root's lines.
   */
  function BuildOf(a: Arena, q: nat, fmt: Formatting): (r: string)
    requires Valid(a) && q < |a.nodes|
    ensures Top(a, q) < |a.nodes| && Strip(r) == QueryBuilder.Skeleton(NodeOf(a, Top(a, q)))
    ensures QueryBuilder.NoAbut(NodeOf(a, Top(a, q))) ==>
              r == QueryBuilder.ChildBuild(NodeOf(a, Top(a, q)), fmt) == Render(QueryBuilder.NodeLines(NodeOf(a, Top(a, q))), fmt)
    ensures fmt.Compact? && QueryBuilder.OneLineNames(NodeOf(a, Top(a, q))) ==> '\n' !in r
  {
    assert NodeOk(a, q);
    var root := NodeOf(a, Top(a, q));
    QueryBuilder.StripWrittenChildBuild(root, fmt);
    QueryBuilder.BuildLines(root, fmt);
    assert fmt.Compact? && QueryBuilder.OneLineNames(root) ==> '\n' !in QueryBuilder.WrittenChildBuild(root, fmt) by {
      if fmt.Compact? && QueryBuilder.OneLineNames(root) {
        QueryBuilder.CompactOneLine(root);
      }
    }
    if QueryBuilder.NoAbut(root) then
      QueryBuilder.WrittenAgrees(root, fmt);
      QueryBuilder.WrittenChildBuild(root, fmt)
    else
      QueryBuilder.WrittenChildBuild(root, fmt)
  }

  // ---------------------------------------------------------------------------------------------------------------
  // The operations, as changes of the arena.

  /** `New(objectToQuery)`: a root node with a fresh empty argument set and a fresh empty selection. */
  function NewOp(a: Arena, name: string): Arena
  {
    a.(argumentSets := a.argumentSets + [ArgumentsRec([], [])],
       selections := a.selections + [[]],
       nodes := a.nodes + [NodeRec(None, name, |a.argumentSets|, |a.selections|, [], 0)])
  }

  /** `Query(objectToQuery)` on node `q`: a child one level deeper, sharing `q`'s root, appended to `_children`. */
  function QueryOp(a: Arena, q: nat, name: string): Arena
    requires q < |a.nodes|
  {
    var n := a.nodes[q];
    a.(argumentSets := a.argumentSets + [ArgumentsRec([], [])],
       selections := a.selections + [[]],
       nodes := a.nodes[q := n.(children := n.children + [|a.nodes|])]
                + [NodeRec(Some(Top(a, q)), name, |a.argumentSets|, |a.selections|, [], n.nesting + 1)])
  }

  /** `Var(name, defaultValue)` on argument set `x`: a new variable of type `String`, appended to `_variables`. */
  function VarOp(a: Arena, x: nat, name: string, defaultValue: string): Arena
    requires x < |a.argumentSets|
  {
    var r := a.argumentSets[x];
    a.(variables := a.variables + [VariableBuilder.New(name, defaultValue)],
       argumentSets := a.argumentSets[x := r.(variables := r.variables + [|a.variables|])])
  }

  /** `Object(ofType)` and its named forms on variable `v`. */
  function ObjectOp(a: Arena, v: nat, ofType: string): Arena
    requires v < |a.variables|
  {
    a.(variables := a.variables[v := VariableBuilder.Object(a.variables[v], ofType)])
  }

  /** `Required()` on variable `v`. */
  function RequiredOp(a: Arena, v: nat): Arena
    requires v < |a.variables|
  {
    a.(variables := a.variables[v := VariableBuilder.Required(a.variables[v])])
  }

  /** `Param(name, value)` and the indexer on argument set `x`: `_params[name] = value`. */
  function ParamOp(a: Arena, x: nat, key: string, value: string): Arena
    requires x < |a.argumentSets|
  {
    var r := a.argumentSets[x];
    a.(argumentSets := a.argumentSets[x := r.(params := ArgumentsBuilder.SetParam(r.params, key, value))])
  }

  /** `Field(name)` on selection `s`: a new field with a fresh empty child selection, appended to `_fields`. */
  function FieldOp(a: Arena, s: nat, name: string): Arena
    requires s < |a.selections|
  {
    a.(fields := a.fields + [FieldRec(name, |a.selections|)],
       selections := a.selections[s := a.selections[s] + [|a.fields|]] + [[]])
  }

  // ---------------------------------------------------------------------------------------------------------------
  // Frames: what an operation leaves as it was.

  /** Selections made after `lo` and left alone render the same when fields are only added and selections only appended. */
  lemma {:induction false} SelectionFrame(a: Arena, b: Arena, lo: int, t: nat)
    requires SelectionsOk(a) && SelectionsOk(b)
    requires |a.fields| <= |b.fields| && a.fields == b.fields[..|a.fields|]
    requires |a.selections| <= |b.selections|
    requires -1 <= lo < t < |a.selections|
    requires forall u :: lo < u < |a.selections| ==> b.selections[u] == a.selections[u]
    ensures SelectionOf(b, t) == SelectionOf(a, t)
    decreases |a.selections| - t, 1
  {
    FieldsFrame(a, b, lo, t, a.selections[t]);
  }

  lemma {:induction false} FieldsFrame(a: Arena, b: Arena, lo: int, t: nat, ids: seq<nat>)
    requires SelectionsOk(a) && SelectionsOk(b)
    requires |a.fields| <= |b.fields| && a.fields == b.fields[..|a.fields|]
    requires |a.selections| <= |b.selections|
    requires -1 <= lo <= t < |a.selections|
    requires forall u :: lo < u < |a.selections| ==> b.selections[u] == a.selections[u]
    requires forall i :: 0 <= i < |ids| ==> ids[i] < |a.fields| && t < a.fields[ids[i]].child < |a.selections|
    ensures FieldsOf(b, t, ids) == FieldsOf(a, t, ids)
    decreases |a.selections| - t, 0, |ids|
  {
    if ids != [] {
      assert b.fields[ids[0]] == a.fields[ids[0]];
      SelectionFrame(a, b, lo, a.fields[ids[0]].child);
      FieldsFrame(a, b, lo, t, ids[1..]);
    }
  }

  /** Appending field ids appends their renderings. */
  lemma {:induction false} FieldsOfAppend(a: Arena, s: nat, ids: seq<nat>, f: nat)
    requires SelectionsOk(a) && s < |a.selections|
    requires forall i :: 0 <= i < |ids| ==> ids[i] < |a.fields| && s < a.fields[ids[i]].child < |a.selections|
    requires f < |a.fields| && s < a.fields[f].child < |a.selections|
    ensures FieldsOf(a, s, ids + [f]) == FieldsOf(a, s, ids) + [SelectBuilder.Field(a.fields[f].name, SelectionOf(a, a.fields[f].child))]
    decreases |ids|
  {
    if ids == [] {
      assert [] + [f] == [f];
    } else {
      assert (ids + [f])[1..] == ids[1..] + [f];
      FieldsOfAppend(a, s, ids[1..], f);
    }
  }

  /** Nodes made after `lo` and left alone render the same when everything else only grows. */
  lemma {:induction false} NodeFrame(a: Arena, b: Arena, lo: int, q: nat)
    requires Valid(a) && Valid(b)
    requires a.variables == b.variables && a.fields == b.fields
    requires |a.argumentSets| <= |b.argumentSets| && a.argumentSets == b.argumentSets[..|a.argumentSets|]
    requires |a.selections| <= |b.selections| && a.selections == b.selections[..|a.selections|]
    requires |a.nodes| <= |b.nodes|
    requires -1 <= lo < q < |a.nodes|
    requires forall u :: lo < u < |a.nodes| ==> b.nodes[u] == a.nodes[u]
    ensures NodeOf(b, q) == NodeOf(a, q)
    decreases |a.nodes| - q, 1
  {
    assert NodeOk(a, q) && NodeOk(b, q);
    assert b.nodes[q] == a.nodes[q];
    var n := a.nodes[q];
    assert VariablesOf(b, a.argumentSets[n.arguments].variables) == VariablesOf(a, a.argumentSets[n.arguments].variables);
    SelectionFrame(a, b, -1, n.select);
    NodesFrame(a, b, lo, q, n.children);
  }

  lemma {:induction false} NodesFrame(a: Arena, b: Arena, lo: int, q: nat, ids: seq<nat>)
    requires Valid(a) && Valid(b)
    requires a.variables == b.variables && a.fields == b.fields
    requires |a.argumentSets| <= |b.argumentSets| && a.argumentSets == b.argumentSets[..|a.argumentSets|]
    requires |a.selections| <= |b.selections| && a.selections == b.selections[..|a.selections|]
    requires |a.nodes| <= |b.nodes|
    requires -1 <= lo <= q < |a.nodes|
    requires forall u :: lo < u < |a.nodes| ==> b.nodes[u] == a.nodes[u]
    requires forall i :: 0 <= i < |ids| ==> q < ids[i] < |a.nodes|
    ensures NodesOf(b, q, ids) == NodesOf(a, q, ids)
    decreases |a.nodes| - q, 0, |ids|
  {
    if ids != [] {
      NodeFrame(a, b, lo, ids[0]);
      NodesFrame(a, b, lo, q, ids[1..]);
    }
  }

  lemma {:induction false} NodesOfAppend(a: Arena, q: nat, ids: seq<nat>, c: nat)
    requires Valid(a) && q < |a.nodes|
    requires forall i :: 0 <= i < |ids| ==> q < ids[i] < |a.nodes|
    requires q < c < |a.nodes|
    ensures NodesOf(a, q, ids + [c]) == NodesOf(a, q, ids) + [NodeOf(a, c)]
    decreases |ids|
  {
    if ids == [] {
      assert [] + [c] == [c];
    } else {
      assert (ids + [c])[1..] == ids[1..] + [c];
      NodesOfAppend(a, q, ids[1..], c);
    }
  }

  // ---------------------------------------------------------------------------------------------------------------
  // What each operation does to what is rendered.

  /** `New` makes a bare root, keeps the invariant and leaves every earlier node as it rendered. */
  lemma NewRoot(a: Arena, name: string)
    requires Valid(a)
    ensures Valid(NewOp(a, name))
    ensures NodeOf(NewOp(a, name), |a.nodes|) == QueryBuilder.Bare(name, 0)
    ensures Top(NewOp(a, name), |a.nodes|) == |a.nodes|
    ensures forall q :: 0 <= q < |a.nodes| ==> NodeOf(NewOp(a, name), q) == NodeOf(a, q)
  {
    NewValid(a, name);
    NewBare(a, name);
    NewFrame(a, name);
  }

  lemma NewValid(a: Arena, name: string)
    requires Valid(a)
    ensures Valid(NewOp(a, name))
  {
    var b := NewOp(a, name);
    assert forall q :: 0 <= q < |a.nodes| ==> Top(b, q) == Top(a, q);
    assert NodesOk(b) by {
      forall q | 0 <= q < |b.nodes| ensures NodeOk(b, q) {
        if q < |a.nodes| {
          assert NodeOk(a, q);
        }
      }
    }
  }

  lemma NewBare(a: Arena, name: string)
    requires Valid(a) && Valid(NewOp(a, name))
    ensures NodeOf(NewOp(a, name), |a.nodes|) == QueryBuilder.Bare(name, 0)
  {
    var b := NewOp(a, name);
    var c := |a.nodes|;
    assert ArgumentsOf(b, b.nodes[c].arguments) == ArgumentsBuilder.Arguments([], []);
    assert SelectionOf(b, b.nodes[c].select) == SelectBuilder.Selection([]);
  }

  lemma NewFrame(a: Arena, name: string)
    requires Valid(a) && Valid(NewOp(a, name))
    ensures forall q :: 0 <= q < |a.nodes| ==> NodeOf(NewOp(a, name), q) == NodeOf(a, q)
  {
    var b := NewOp(a, name);
    forall q | 0 <= q < |a.nodes| ensures NodeOf(b, q) == NodeOf(a, q) {
      NodeFrame(a, b, -1, q);
    }
  }

  /** `Query` keeps the invariant. */
  lemma QueryValid(a: Arena, q: nat, name: string)
    requires Valid(a) && q < |a.nodes|
    ensures Valid(QueryOp(a, q, name))
    ensures forall x :: 0 <= x < |a.nodes| ==> Top(QueryOp(a, q, name), x) == Top(a, x)
  {
    var b := QueryOp(a, q, name);
    assert forall x :: 0 <= x < |a.nodes| ==> b.nodes[x].root == a.nodes[x].root;
    assert forall x :: 0 <= x < |a.nodes| ==> Top(b, x) == Top(a, x);
    assert NodeOk(a, q);
    assert NodesOk(b) by {
      forall x | 0 <= x < |b.nodes| ensures NodeOk(b, x) {
        if x < |a.nodes| {
          assert NodeOk(a, x);
          if x == q {
            forall i | 0 <= i < |b.nodes[q].children| ensures ChildOk(b, q, b.nodes[q].children[i]) {
              if i < |a.nodes[q].children| {
                assert ChildOk(a, q, a.nodes[q].children[i]);
              }
            }
          } else {
            forall i | 0 <= i < |b.nodes[x].children| ensures ChildOk(b, x, b.nodes[x].children[i]) {
              assert ChildOk(a, x, a.nodes[x].children[i]);
            }
          }
        }
      }
    }
  }

  /**
   * `Query` makes a bare child one level below `q`, appends it to `q`'s children, keeps the invariant, and the
   * child builds the same document as `q`.
   */
  lemma QueryChild(a: Arena, q: nat, name: string)
    requires Valid(a) && q < |a.nodes|
    ensures Valid(QueryOp(a, q, name))
    ensures NodeOf(QueryOp(a, q, name), |a.nodes|) == QueryBuilder.Bare(name, a.nodes[q].nesting + 1)
    ensures NodeOf(QueryOp(a, q, name), q)
         == NodeOf(a, q).(children := NodeOf(a, q).children + [QueryBuilder.Bare(name, a.nodes[q].nesting + 1)])
    ensures Top(QueryOp(a, q, name), |a.nodes|) == Top(QueryOp(a, q, name), q) == Top(a, q)
  {
    QueryValid(a, q, name);
    QueryBare(a, q, name);
    QueryParent(a, q, name);
  }

  lemma QueryBare(a: Arena, q: nat, name: string)
    requires Valid(a) && q < |a.nodes| && Valid(QueryOp(a, q, name))
    ensures NodeOf(QueryOp(a, q, name), |a.nodes|) == QueryBuilder.Bare(name, a.nodes[q].nesting + 1)
  {
    var b := QueryOp(a, q, name);
    var c := |a.nodes|;
    assert b.nodes[c] == NodeRec(Some(Top(a, q)), name, |a.argumentSets|, |a.selections|, [], a.nodes[q].nesting + 1);
    assert ArgumentsOf(b, |a.argumentSets|) == ArgumentsBuilder.Arguments([], []);
    assert SelectionOf(b, |a.selections|) == SelectBuilder.Selection([]);
    assert NodesOf(b, c, []) == [];
  }

  lemma QueryParent(a: Arena, q: nat, name: string)
    requires Valid(a) && q < |a.nodes| && Valid(QueryOp(a, q, name))
    requires NodeOf(QueryOp(a, q, name), |a.nodes|) == QueryBuilder.Bare(name, a.nodes[q].nesting + 1)
    ensures NodeOf(QueryOp(a, q, name), q)
         == NodeOf(a, q).(children := NodeOf(a, q).children + [QueryBuilder.Bare(name, a.nodes[q].nesting + 1)])
  {
    var b := QueryOp(a, q, name);
    assert NodeOk(a, q) && NodeOk(b, q);
    var n := a.nodes[q];
    assert b.nodes[q] == n.(children := n.children + [|a.nodes|]);
    QueryParentParts(a, q, name);
    assert NodeOf(b, q) == QueryBuilder.Node(n.name, ArgumentsOf(b, n.arguments), SelectionOf(b, n.select), NodesOf(b, q, n.children + [|a.nodes|]), n.nesting);
  }

  /** The parts of `q` other than its children list are untouched by `Query`, and the list gains the new child. */
  lemma QueryParentParts(a: Arena, q: nat, name: string)
    requires Valid(a) && q < |a.nodes| && Valid(QueryOp(a, q, name))
    requires NodeOf(QueryOp(a, q, name), |a.nodes|) == QueryBuilder.Bare(name, a.nodes[q].nesting + 1)
    ensures NodeOk(a, q)
    ensures ArgumentsOf(QueryOp(a, q, name), a.nodes[q].arguments) == ArgumentsOf(a, a.nodes[q].arguments)
    ensures SelectionOf(QueryOp(a, q, name), a.nodes[q].select) == SelectionOf(a, a.nodes[q].select)
    ensures NodesOf(QueryOp(a, q, name), q, a.nodes[q].children + [|a.nodes|])
         == NodesOf(a, q, a.nodes[q].children) + [QueryBuilder.Bare(name, a.nodes[q].nesting + 1)]
  {
    assert NodeOk(a, q);
    QueryKeepsArguments(a, q, name);
    SelectionFrame(a, QueryOp(a, q, name), -1, a.nodes[q].select);
    QueryAppendsChild(a, q, name);
  }

  lemma QueryKeepsArguments(a: Arena, q: nat, name: string)
    requires Valid(a) && q < |a.nodes| && Valid(QueryOp(a, q, name)) && NodeOk(a, q)
    ensures ArgumentsOf(QueryOp(a, q, name), a.nodes[q].arguments) == ArgumentsOf(a, a.nodes[q].arguments)
  {
    var x := a.nodes[q].arguments;
    assert VariablesOf(QueryOp(a, q, name), a.argumentSets[x].variables) == VariablesOf(a, a.argumentSets[x].variables);
  }

  lemma QueryAppendsChild(a: Arena, q: nat, name: string)
    requires Valid(a) && q < |a.nodes| && Valid(QueryOp(a, q, name)) && NodeOk(a, q)
    requires NodeOf(QueryOp(a, q, name), |a.nodes|) == QueryBuilder.Bare(name, a.nodes[q].nesting + 1)
    ensures NodesOf(QueryOp(a, q, name), q, a.nodes[q].children + [|a.nodes|])
         == NodesOf(a, q, a.nodes[q].children) + [QueryBuilder.Bare(name, a.nodes[q].nesting + 1)]
  {
    var b := QueryOp(a, q, name);
    var ids := a.nodes[q].children;
    assert forall i :: 0 <= i < |ids| ==> ChildOk(a, q, ids[i]);
    NodesOfAppend(b, q, ids, |a.nodes|);
    NodesFrame(a, b, q, q, ids);
  }

  /** `Var` appends a `String` variable to argument set `x` and changes no other argument set. */
  lemma VarAppends(a: Arena, x: nat, name: string, defaultValue: string)
    requires Valid(a) && x < |a.argumentSets|
    ensures Valid(VarOp(a, x, name, defaultValue))
    ensures ArgumentsOf(VarOp(a, x, name, defaultValue), x).variables == ArgumentsOf(a, x).variables + [VariableBuilder.New(name, defaultValue)]
    ensures ArgumentsOf(VarOp(a, x, name, defaultValue), x).params == ArgumentsOf(a, x).params
    ensures forall y :: 0 <= y < |a.argumentSets| && y != x ==> ArgumentsOf(VarOp(a, x, name, defaultValue), y) == ArgumentsOf(a, y)
  {
    var b := VarOp(a, x, name, defaultValue);
    forall y | 0 <= y < |a.argumentSets| && y != x ensures ArgumentsOf(b, y) == ArgumentsOf(a, y) {
      assert VariablesOf(b, a.argumentSets[y].variables) == VariablesOf(a, a.argumentSets[y].variables);
    }
    assert VariablesOf(b, b.argumentSets[x].variables) == VariablesOf(a, a.argumentSets[x].variables) + [VariableBuilder.New(name, defaultValue)];
    assert NodesOk(b) by {
      forall q | 0 <= q < |b.nodes| ensures NodeOk(b, q) {
        assert NodeOk(a, q);
        assert forall i :: 0 <= i < |a.nodes[q].children| ==> ChildOk(a, q, a.nodes[q].children[i]);
      }
    }
  }

  /**
   * Changing a variable through its handle changes every argument set that holds it, in the position where it
   * holds it, and nothing else: the variable is one shared object.
   */
  lemma ObjectShared(a: Arena, v: nat, ofType: string)
    requires Valid(a) && v < |a.variables|
    ensures Valid(ObjectOp(a, v, ofType))
    ensures ObjectOp(a, v, ofType).variables[v] == VariableBuilder.Object(a.variables[v], ofType)
    ensures forall x, i :: 0 <= x < |a.argumentSets| && 0 <= i < |a.argumentSets[x].variables| ==>
              ArgumentsOf(ObjectOp(a, v, ofType), x).variables[i]
              == (if a.argumentSets[x].variables[i] == v then VariableBuilder.Object(a.variables[v], ofType) else ArgumentsOf(a, x).variables[i])
  {
    var b := ObjectOp(a, v, ofType);
    assert NodesOk(b) by {
      forall q | 0 <= q < |b.nodes| ensures NodeOk(b, q) {
        assert NodeOk(a, q);
        assert forall i :: 0 <= i < |a.nodes[q].children| ==> ChildOk(a, q, a.nodes[q].children[i]);
      }
    }
  }

  lemma RequiredShared(a: Arena, v: nat)
    requires Valid(a) && v < |a.variables|
    ensures Valid(RequiredOp(a, v))
    ensures RequiredOp(a, v).variables[v].required
    ensures forall x, i :: 0 <= x < |a.argumentSets| && 0 <= i < |a.argumentSets[x].variables| ==>
              ArgumentsOf(RequiredOp(a, v), x).variables[i]
              == (if a.argumentSets[x].variables[i] == v then VariableBuilder.Required(a.variables[v]) else ArgumentsOf(a, x).variables[i])
  {
    var b := RequiredOp(a, v);
    assert NodesOk(b) by {
      forall q | 0 <= q < |b.nodes| ensures NodeOk(b, q) {
        assert NodeOk(a, q);
        assert forall i :: 0 <= i < |a.nodes[q].children| ==> ChildOk(a, q, a.nodes[q].children[i]);
      }
    }
  }

  /** `Param` sets one named argument of argument set `x`, keeping its variables and every other argument set. */
  lemma ParamSets(a: Arena, x: nat, key: string, value: string)
    requires Valid(a) && x < |a.argumentSets|
    ensures Valid(ParamOp(a, x, key, value))
    ensures ArgumentsOf(ParamOp(a, x, key, value), x) == ArgumentsOf(a, x).(params := ArgumentsBuilder.SetParam(ArgumentsOf(a, x).params, key, value))
    ensures forall y :: 0 <= y < |a.argumentSets| && y != x ==> ArgumentsOf(ParamOp(a, x, key, value), y) == ArgumentsOf(a, y)
    ensures ArgumentsBuilder.Count(ArgumentsOf(ParamOp(a, x, key, value), x).params, key) == 1
  {
    var b := ParamOp(a, x, key, value);
    ArgumentsBuilder.SetParamUnique(a.argumentSets[x].params, key, value);
    assert ParamsOk(b) by {
      forall y | 0 <= y < |b.argumentSets| ensures ArgumentsBuilder.UniqueKeys(b.argumentSets[y].params) {
        if y != x {
          assert b.argumentSets[y] == a.argumentSets[y];
        }
      }
    }
    assert NodesOk(b) by {
      forall q | 0 <= q < |b.nodes| ensures NodeOk(b, q) {
        assert NodeOk(a, q);
        assert forall i :: 0 <= i < |a.nodes[q].children| ==> ChildOk(a, q, a.nodes[q].children[i]);
      }
    }
  }

  /**
   * `Field` appends a field with an empty child to selection `s`, and every selection made after `s` renders
   * as before.
   */
  lemma FieldAppends(a: Arena, s: nat, name: string)
    requires Valid(a) && s < |a.selections|
    ensures Valid(FieldOp(a, s, name))
    ensures SelectionOf(FieldOp(a, s, name), s) == SelectBuilder.AddField(SelectionOf(a, s), name)
    ensures SelectionOf(FieldOp(a, s, name), |a.selections|) == SelectBuilder.Selection([])
    ensures forall t :: s < t < |a.selections| ==> SelectionOf(FieldOp(a, s, name), t) == SelectionOf(a, t)
  {
    var b := FieldOp(a, s, name);
    var f := |a.fields|;
    assert SelectionsOk(b) by {
      forall u, i | 0 <= u < |b.selections| && 0 <= i < |b.selections[u]|
        ensures b.selections[u][i] < |b.fields| && u < b.fields[b.selections[u][i]].child < |b.selections|
      {
        if u < |a.selections| && !(u == s && i == |a.selections[s]|) {
          assert b.selections[u][i] == a.selections[u][i];
        }
      }
    }
    assert NodesOk(b) by {
      forall q | 0 <= q < |b.nodes| ensures NodeOk(b, q) {
        assert NodeOk(a, q);
        assert forall i :: 0 <= i < |a.nodes[q].children| ==> ChildOk(a, q, a.nodes[q].children[i]);
      }
    }
    assert SelectionOf(b, |a.selections|) == SelectBuilder.Selection([]);
    forall t | s < t < |a.selections| ensures SelectionOf(b, t) == SelectionOf(a, t) {
      SelectionFrame(a, b, s, t);
    }
    FieldsOfAppend(b, s, a.selections[s], f);
    FieldsFrame(a, b, s, s, a.selections[s]);
  }

  // ---------------------------------------------------------------------------------------------------------------
  // Properties of every valid arena.

  /** Every rendered node has every child exactly one level below its parent, all the way down. */
  lemma {:induction false} NestingHolds(a: Arena, q: nat)
    requires Valid(a) && q < |a.nodes|
    ensures QueryBuilder.WellNested(NodeOf(a, q))
    decreases |a.nodes| - q
  {
    var t := NodeOf(a, q);
    var cs := a.nodes[q].children;
    assert NodeOk(a, q);
    forall i | 0 <= i < |t.children|
      ensures t.children[i].nesting == t.nesting + 1 && QueryBuilder.WellNested(t.children[i])
    {
      ChildAt(a, q, cs, i);
      assert ChildOk(a, q, cs[i]);
      NestingHolds(a, cs[i]);
    }
  }

  lemma {:induction false} ChildAt(a: Arena, q: nat, ids: seq<nat>, i: nat)
    requires Valid(a) && q < |a.nodes|
    requires forall j :: 0 <= j < |ids| ==> q < ids[j] < |a.nodes|
    requires i < |ids|
    ensures NodesOf(a, q, ids)[i] == NodeOf(a, ids[i])
    decreases i
  {
    if i > 0 {
      ChildAt(a, q, ids[1..], i - 1);
    }
  }

  /** Building through any child of `q` gives the same document as building through `q`. */
  lemma ChildBuildsSame(a: Arena, q: nat, i: nat, fmt: Formatting)
    requires Valid(a) && q < |a.nodes| && i < |a.nodes[q].children|
    ensures a.nodes[q].children[i] < |a.nodes| && BuildOf(a, a.nodes[q].children[i], fmt) == BuildOf(a, q, fmt)
  {
    assert NodeOk(a, q);
    assert ChildOk(a, q, a.nodes[q].children[i]);
    if a.nodes[q].root.Some? {
      assert NodeOk(a, a.nodes[q].root.value) by {
        assert a.nodes[q].root.value < |a.nodes|;
      }
    }
  }

  // ---------------------------------------------------------------------------------------------------------------

  /** The arena as an object whose methods are the builders' public operations. */
  class Builders {
    var variables: seq<VariableBuilder.Variable>
    var argumentSets: seq<ArgumentsRec>
    var fields: seq<FieldRec>
    var selections: seq<seq<nat>>
    var nodes: seq<NodeRec>

    function Contents(): Arena
      reads this
    {
      Arena(variables, argumentSets, fields, selections, nodes)
    }

    predicate Ok()
      reads this
    {
      Valid(Contents())
    }

    constructor()
      ensures Contents() == EmptyArena() && Ok()
    {
      variables, argumentSets, fields, selections, nodes := [], [], [], [], [];
    }

    /**
     * `GraphQLQueryBuilder.New(objectToQuery, arguments, select)`: a new root, with the argument set and the
     * selection that the two callbacks are given.
     */
    method New(name: string) returns (q: nat, arguments: nat, select: nat)
      requires Ok()
      modifies this
      ensures Contents() == NewOp(old(Contents()), name) && Ok()
      ensures q == old(|nodes|) && QueryNode(q) == QueryBuilder.Bare(name, 0)
      ensures arguments == old(|argumentSets|) == nodes[q].arguments && select == old(|selections|) == nodes[q].select
    {
      NewRoot(Contents(), name);
      q, arguments, select := |nodes|, |argumentSets|, |selections|;
      nodes := nodes + [NodeRec(None, name, |argumentSets|, |selections|, [], 0)];
      argumentSets := argumentSets + [ArgumentsRec([], [])];
      selections := selections + [[]];
    }

    /**
     * `Query(objectToQuery, arguments, select)` on node `q`: a new child of `q`, with the argument set and the
     * selection that the two callbacks are given.
     */
    method Query(q: nat, name: string) returns (c: nat, arguments: nat, select: nat)
      requires Ok() && q < |nodes|
      modifies this
      ensures Contents() == QueryOp(old(Contents()), q, name) && Ok()
      ensures c == old(|nodes|) && QueryNode(c) == QueryBuilder.Bare(name, old(nodes[q].nesting) + 1)
      ensures arguments == old(|argumentSets|) == nodes[c].arguments && select == old(|selections|) == nodes[c].select
      ensures QueryNode(q) == old(QueryNode(q)).(children := old(QueryNode(q)).children + [QueryNode(c)])
      ensures forall fmt :: Build(c, fmt) == Build(q, fmt)
    {
      ghost var a := Contents();
      var n := nodes[q];
      var root := if n.root.None? then q else n.root.value;
      c, arguments, select := |nodes|, |argumentSets|, |selections|;
      nodes := nodes[q := n.(children := n.children + [c])] + [NodeRec(Some(root), name, |argumentSets|, |selections|, [], n.nesting + 1)];
      argumentSets := argumentSets + [ArgumentsRec([], [])];
      selections := selections + [[]];
      assert Contents() == QueryOp(a, q, name);
      QueryChild(a, q, name);
    }

    /** `Var(name, defaultValue)` on argument set `x`: a new variable, also held by `x`. */
    method Var(x: nat, name: string, defaultValue: string) returns (v: nat)
      requires Ok() && x < |argumentSets|
      modifies this
      ensures Contents() == VarOp(old(Contents()), x, name, defaultValue) && Ok()
      ensures v == old(|variables|) && variables[v] == VariableBuilder.New(name, defaultValue)
      ensures Arguments(x).variables == old(Arguments(x)).variables + [VariableBuilder.New(name, defaultValue)]
    {
      VarAppends(Contents(), x, name, defaultValue);
      v := |variables|;
      var r := argumentSets[x];
      variables := variables + [VariableBuilder.New(name, defaultValue)];
      argumentSets := argumentSets[x := r.(variables := r.variables + [v])];
    }

    /** `Object(ofType)` on variable `v`; `String()`, `Int()` and the others pass their own type name. */
    method Object(v: nat, ofType: string) returns (w: nat)
      requires Ok() && v < |variables|
      modifies this
      ensures Contents() == ObjectOp(old(Contents()), v, ofType) && Ok()
      ensures w == v && variables[v] == VariableBuilder.Object(old(variables[v]), ofType)
    {
      ObjectShared(Contents(), v, ofType);
      variables := variables[v := VariableBuilder.Object(variables[v], ofType)];
      w := v;
    }

    method String(v: nat) returns (w: nat)
      requires Ok() && v < |variables|
      modifies this
      ensures Contents() == ObjectOp(old(Contents()), v, "String") && Ok()
      ensures w == v && variables[v] == old(variables[v]).(typ := "String")
    {
      w := Object(v, "String");
    }

    method Int(v: nat) returns (w: nat)
      requires Ok() && v < |variables|
      modifies this
      ensures Contents() == ObjectOp(old(Contents()), v, "Int") && Ok()
      ensures w == v && variables[v] == old(variables[v]).(typ := "Int")
    {
      VariableBuilder.ScalarTypes(variables[v]);
      w := Object(v, "Int");
    }

    method Float(v: nat) returns (w: nat)
      requires Ok() && v < |variables|
      modifies this
      ensures Contents() == ObjectOp(old(Contents()), v, "Float") && Ok()
      ensures w == v && variables[v] == old(variables[v]).(typ := "Float")
    {
      VariableBuilder.ScalarTypes(variables[v]);
      w := Object(v, "Float");
    }

    method Boolean(v: nat) returns (w: nat)
      requires Ok() && v < |variables|
      modifies this
      ensures Contents() == ObjectOp(old(Contents()), v, "Boolean") && Ok()
      ensures w == v && variables[v] == old(variables[v]).(typ := "Boolean")
    {
      VariableBuilder.ScalarTypes(variables[v]);
      w := Object(v, "Boolean");
    }

    method ID(v: nat) returns (w: nat)
      requires Ok() && v < |variables|
      modifies this
      ensures Contents() == ObjectOp(old(Contents()), v, "ID") && Ok()
      ensures w == v && variables[v] == old(variables[v]).(typ := "ID")
    {
      VariableBuilder.ScalarTypes(variables[v]);
      w := Object(v, "ID");
    }

    /** `Required()` on variable `v`. */
    method Required(v: nat) returns (w: nat)
      requires Ok() && v < |variables|
      modifies this
      ensures Contents() == RequiredOp(old(Contents()), v) && Ok()
      ensures w == v && variables[v] == old(variables[v]).(required := true)
    {
      RequiredShared(Contents(), v);
      variables := variables[v := VariableBuilder.Required(variables[v])];
      w := v;
    }

    /** `Param(name, value)` on argument set `x`. */
    method Param(x: nat, key: string, value: string)
      requires Ok() && x < |argumentSets|
      modifies this
      ensures Contents() == ParamOp(old(Contents()), x, key, value) && Ok()
      ensures Arguments(x) == old(Arguments(x)).(params := ArgumentsBuilder.SetParam(old(Arguments(x)).params, key, value))
      ensures ArgumentsBuilder.UniqueKeys(Arguments(x).params) && ArgumentsBuilder.Count(Arguments(x).params, key) == 1
    {
      ParamSets(Contents(), x, key, value);
      var r := argumentSets[x];
      argumentSets := argumentSets[x := r.(params := ArgumentsBuilder.SetParam(r.params, key, value))];
    }

    /** The indexer's setter `this[name] = value` on argument set `x`: the same as `Param`. */
    method SetItem(x: nat, key: string, value: string)
      requires Ok() && x < |argumentSets|
      modifies this
      ensures Contents() == ParamOp(old(Contents()), x, key, value) && Ok()
      ensures Arguments(x) == old(Arguments(x)).(params := ArgumentsBuilder.SetParam(old(Arguments(x)).params, key, value))
      ensures ArgumentsBuilder.UniqueKeys(Arguments(x).params) && ArgumentsBuilder.Count(Arguments(x).params, key) == 1
    {
      Param(x, key, value);
    }

    /** `Field(name)` on selection `s`: a new field, also held by `s`. */
    method Field(s: nat, name: string) returns (f: nat)
      requires Ok() && s < |selections|
      modifies this
      ensures Contents() == FieldOp(old(Contents()), s, name) && Ok()
      ensures f == old(|fields|) && fields[f] == FieldRec(name, old(|selections|))
      ensures Selection(s) == SelectBuilder.AddField(old(Selection(s)), name)
    {
      FieldAppends(Contents(), s, name);
      f := |fields|;
      fields := fields + [FieldRec(name, |selections|)];
      selections := selections[s := selections[s] + [f]] + [[]];
    }

    /** `Select(innerFields)` on field `f`: the child selection that the callback fills. */
    method Select(f: nat) returns (s: nat)
      requires Ok() && f < |fields|
      ensures s == fields[f].child
    {
      s := fields[f].child;
    }

    function Arguments(x: nat): ArgumentsBuilder.Arguments
      reads this
      requires Ok() && x < |argumentSets|
    {
      ArgumentsOf(Contents(), x)
    }

    function Selection(s: nat): SelectBuilder.Selection
      reads this
      requires Ok() && s < |selections|
    {
      SelectionOf(Contents(), s)
    }

    function QueryNode(q: nat): QueryBuilder.Node
      reads this
      requires Ok() && q < |nodes|
    {
      NodeOf(Contents(), q)
    }

    /** `Build(formatting)` on node `q`: the code's own document of `q`'s root, on one line when compact. */
    function Build(q: nat, fmt: Formatting): (r: string)
      reads this
      requires Ok() && q < |nodes|
      ensures Top(Contents(), q) < |nodes| && Strip(r) == QueryBuilder.Skeleton(QueryNode(Top(Contents(), q)))
      ensures r == QueryBuilder.WrittenChildBuild(QueryNode(Top(Contents(), q)), fmt)
      ensures QueryBuilder.NoAbut(QueryNode(Top(Contents(), q))) ==>
                r == Render(QueryBuilder.NodeLines(QueryNode(Top(Contents(), q))), fmt)
      ensures fmt.Compact? && QueryBuilder.OneLineNames(QueryNode(Top(Contents(), q))) ==> '\n' !in r
    {
      assert NodeOk(Contents(), q);
      BuildOf(Contents(), q, fmt)
    }
  }
}
