/**
 * The organization query of `CreateQueryTest` and `CreateQueryWithoutFormatTest`, driven through the builder
 * objects call by call in the order the callbacks make them, and built from the child that `Query` returns.
 */
module Replay {
  import opened Text
  import VariableBuilder
  import ArgumentsBuilder
  import SelectBuilder
  import QueryBuilder
  import opened BuilderHeap
  import Scenarios

  const Org := VariableBuilder.Variable("Org", "", "String", true)
  const Items := VariableBuilder.Variable("Items", "", "Int", true)
  const Cursor := VariableBuilder.Variable("Cursor", "", "String", false)
  const Root := NodeRec(None, "query", 0, 0, [], 0)
  const RootArguments := ArgumentsRec([0, 1, 2], [])
  const Child := NodeRec(Some(0), "organization", 1, 1, [], 1)

  /** The arena once both nodes and their arguments exist, with the given fields and selections. */
  function WithFields(fields: seq<FieldRec>, selections: seq<seq<nat>>): Arena
  {
    Arena([Org, Items, Cursor],
          [RootArguments, ArgumentsRec([], [ArgumentsBuilder.Entry("first", "$Items"), ArgumentsBuilder.Entry("after", "$Cursor")])],
          fields, selections, [Root.(children := [1]), Child])
  }

  /** The arena those calls leave behind, object by object in creation order. */
  function OrganizationArena(): Arena
  {
    WithFields(
      [FieldRec("totalCount", 2), FieldRec("pageInfo", 3), FieldRec("endCursor", 4), FieldRec("hasNextPage", 5),
       FieldRec("nodes", 6), FieldRec("name", 7), FieldRec("login", 8), FieldRec("avatarUrl", 9)],
      [[], [0, 1, 4], [], [2, 3], [], [], [5, 6, 7], [], [], []])
  }

  /** That arena is valid, and its root renders as the tree the tests describe. */
  lemma OrganizationArenaNode()
    ensures Valid(OrganizationArena())
    ensures NodeOf(OrganizationArena(), 0) == Scenarios.Organization()
    ensures Top(OrganizationArena(), 1) == 0
  {
    var a := OrganizationArena();
    ArenaArgumentsOk();
    assert NodeOk(a, 0) && NodeOk(a, 1) by {
      assert ChildOk(a, 0, 1);
    }
    OrganizationArenaSelection();
    assert ArgumentsOf(a, 0) == Scenarios.OrganizationVariables() by {
      assert VariablesOf(a, [0, 1, 2]) == Scenarios.OrganizationVariables().variables;
    }
    assert ArgumentsOf(a, 1) == Scenarios.OrganizationParams() by {
      assert VariablesOf(a, []) == [];
    }
    assert NodesOf(a, 1, []) == [];
    assert NodeOf(a, 1) == QueryBuilder.Node("organization", Scenarios.OrganizationParams(), Scenarios.OrganizationSelection(), [], 1);
    assert SelectionOf(a, 0) == SelectBuilder.Selection([]);
    assert NodesOf(a, 0, [1]) == [NodeOf(a, 1)];
  }

  /** Every argument set of that arena names existing variables, and the organization's two keys differ. */
  lemma ArenaArgumentsOk()
    ensures ArgumentsOk(OrganizationArena()) && ParamsOk(OrganizationArena())
  {
    var a := OrganizationArena();
    assert ArgumentsBuilder.UniqueKeys(a.argumentSets[0].params);
    assert ArgumentsBuilder.UniqueKeys(a.argumentSets[1].params);
  }

  lemma OrganizationArenaSelection()
    ensures SelectionsOk(OrganizationArena())
    ensures SelectionOf(OrganizationArena(), 1) == Scenarios.OrganizationSelection()
  {
    FirstField();
    LaterFields();
    SelectionSplit(OrganizationArena());
  }

  /** The organization selection is its first field followed by the other two. */
  lemma SelectionSplit(a: Arena)
    requires a == OrganizationArena() && SelectionsOk(a)
    requires FieldsOf(a, 1, [0]) == [Scenarios.Leaf("totalCount")]
    requires FieldsOf(a, 1, [1, 4]) == [Scenarios.PageInfo(), Scenarios.Nodes()]
    ensures SelectionOf(a, 1) == Scenarios.OrganizationSelection()
  {
    assert a.selections[1] == [0, 1, 4];
    assert a.selections[1][1..] == [1, 4];
    assert FieldsOf(a, 1, a.selections[1]) == FieldsOf(a, 1, [0]) + FieldsOf(a, 1, [1, 4]);
  }

  /** The organization selection's `totalCount` field. */
  lemma FirstField()
    ensures SelectionsOk(OrganizationArena())
    ensures FieldsOf(OrganizationArena(), 1, [0]) == [Scenarios.Leaf("totalCount")]
  {
    EmptyChild(2);
  }

  /** The organization selection's `nodes` field. */
  lemma LastField()
    ensures SelectionsOk(OrganizationArena())
    ensures FieldsOf(OrganizationArena(), 1, [4]) == [Scenarios.Nodes()]
  {
    NodesSelection();
  }

  /** The organization selection's `pageInfo` and `nodes` fields. */
  lemma LaterFields()
    ensures SelectionsOk(OrganizationArena())
    ensures FieldsOf(OrganizationArena(), 1, [1, 4]) == [Scenarios.PageInfo(), Scenarios.Nodes()]
  {
    var a := OrganizationArena();
    PageInfoSelection();
    LastField();
    assert [1, 4][1..] == [4];
    assert FieldsOf(a, 1, [1, 4]) == [SelectBuilder.Field(a.fields[1].name, SelectionOf(a, a.fields[1].child))] + FieldsOf(a, 1, [4]);
  }

  /** The arena's selection invariant on its own, so that the lemmas above share one small proof of it. */
  lemma ArenaSelectionsOk()
    ensures SelectionsOk(OrganizationArena())
  {
  }

  /** A selection of the arena that holds no field renders as the empty selection. */
  lemma EmptyChild(k: nat)
    requires k < |OrganizationArena().selections| && OrganizationArena().selections[k] == []
    ensures SelectionsOk(OrganizationArena())
    ensures SelectionOf(OrganizationArena(), k) == SelectBuilder.Selection([])
  {
    ArenaSelectionsOk();
  }

  /** A field of the arena whose child selection holds no field renders as a leaf. */
  lemma LeafField(s: nat, f: nat)
    requires s < |OrganizationArena().selections| && f < |OrganizationArena().fields|
    requires s < OrganizationArena().fields[f].child < |OrganizationArena().selections|
    requires OrganizationArena().selections[OrganizationArena().fields[f].child] == []
    ensures SelectionsOk(OrganizationArena())
    ensures FieldsOf(OrganizationArena(), s, [f]) == [Scenarios.Leaf(OrganizationArena().fields[f].name)]
  {
    EmptyChild(OrganizationArena().fields[f].child);
  }

  lemma PageInfoSelection()
    ensures SelectionsOk(OrganizationArena())
    ensures SelectionOf(OrganizationArena(), 3) == Scenarios.PageInfo().child
  {
    var a := OrganizationArena();
    LeafField(3, 2);
    LeafField(3, 3);
    assert FieldsOf(a, 3, [2, 3])[1..] == FieldsOf(a, 3, [3]);
  }

  lemma NodesSelection()
    ensures SelectionsOk(OrganizationArena())
    ensures SelectionOf(OrganizationArena(), 6) == Scenarios.Nodes().child
  {
    var a := OrganizationArena();
    LeafField(6, 5);
    NodesLaterLeaves();
    assert FieldsOf(a, 6, [5, 6, 7])[1..] == FieldsOf(a, 6, [6, 7]);
  }

  lemma NodesLaterLeaves()
    ensures SelectionsOk(OrganizationArena())
    ensures FieldsOf(OrganizationArena(), 6, [6, 7]) == [Scenarios.Leaf("login"), Scenarios.Leaf("avatarUrl")]
  {
    var a := OrganizationArena();
    LeafField(6, 6);
    LeafField(6, 7);
    assert FieldsOf(a, 6, [6, 7])[1..] == FieldsOf(a, 6, [7]);
  }

  // Each step of the replay, one or two operations at a time, from one arena to the next.

  lemma OrgDeclared()
    ensures RequiredOp(ObjectOp(VarOp(NewOp(EmptyArena(), "query"), 0, "Org", ""), 0, "String"), 0)
         == Arena([Org], [ArgumentsRec([0], [])], [], [[]], [Root])
  {
    VariableBuilder.ScalarTypes(VariableBuilder.New("Org", ""));
    assert NewOp(EmptyArena(), "query") == Arena([], [ArgumentsRec([], [])], [], [[]], [Root]);
    assert [] + [0] == [0];
  }

  lemma ItemsDeclared()
    ensures RequiredOp(ObjectOp(VarOp(Arena([Org], [ArgumentsRec([0], [])], [], [[]], [Root]), 0, "Items", ""), 1, "Int"), 1)
         == Arena([Org, Items], [ArgumentsRec([0, 1], [])], [], [[]], [Root])
  {
    VariableBuilder.ScalarTypes(VariableBuilder.New("Items", ""));
    assert [0] + [1] == [0, 1];
  }

  lemma CursorDeclared()
    ensures ObjectOp(VarOp(Arena([Org, Items], [ArgumentsRec([0, 1], [])], [], [[]], [Root]), 0, "Cursor", ""), 2, "String")
         == Arena([Org, Items, Cursor], [RootArguments], [], [[]], [Root])
  {
    VariableBuilder.ScalarTypes(VariableBuilder.New("Cursor", ""));
    assert [0, 1] + [2] == [0, 1, 2];
  }

  lemma OrganizationQueried()
    ensures QueryOp(Arena([Org, Items, Cursor], [RootArguments], [], [[]], [Root]), 0, "organization")
         == Arena([Org, Items, Cursor], [RootArguments, ArgumentsRec([], [])], [], [[], []], [Root.(children := [1]), Child])
  {
    assert [] + [1] == [1];
  }

  lemma ParamsPassed()
    ensures ParamOp(ParamOp(Arena([Org, Items, Cursor], [RootArguments, ArgumentsRec([], [])], [], [[], []], [Root.(children := [1]), Child]),
                            1, "first", "$Items"), 1, "after", "$Cursor")
         == WithFields([], [[], []])
  {
    assert ArgumentsBuilder.SetParam([], "first", "$Items") == [ArgumentsBuilder.Entry("first", "$Items")];
    assert ArgumentsBuilder.SetParam([ArgumentsBuilder.Entry("first", "$Items")], "after", "$Cursor")
        == [ArgumentsBuilder.Entry("first", "$Items"), ArgumentsBuilder.Entry("after", "$Cursor")];
  }

  lemma TotalCountAdded()
    ensures FieldOp(WithFields([], [[], []]), 1, "totalCount") == WithFields([FieldRec("totalCount", 2)], [[], [0], []])
  {
    assert [] + [0] == [0];
  }

  lemma PageInfoAdded()
    ensures FieldOp(WithFields([FieldRec("totalCount", 2)], [[], [0], []]), 1, "pageInfo")
         == WithFields([FieldRec("totalCount", 2), FieldRec("pageInfo", 3)], [[], [0, 1], [], []])
  {
    assert [0] + [1] == [0, 1];
  }

  lemma EndCursorAdded()
    ensures FieldOp(WithFields([FieldRec("totalCount", 2), FieldRec("pageInfo", 3)], [[], [0, 1], [], []]), 3, "endCursor")
         == WithFields([FieldRec("totalCount", 2), FieldRec("pageInfo", 3), FieldRec("endCursor", 4)], [[], [0, 1], [], [2], []])
  {
    assert [] + [2] == [2];
  }

  /** The first four fields, as `HasNextPageAdded` leaves them. */
  function FourFields(): seq<FieldRec>
  {
    [FieldRec("totalCount", 2), FieldRec("pageInfo", 3), FieldRec("endCursor", 4), FieldRec("hasNextPage", 5)]
  }

  lemma HasNextPageAdded()
    ensures FieldOp(WithFields([FieldRec("totalCount", 2), FieldRec("pageInfo", 3), FieldRec("endCursor", 4)], [[], [0, 1], [], [2], []]), 3, "hasNextPage")
         == WithFields(FourFields(), [[], [0, 1], [], [2, 3], [], []])
  {
    assert [2] + [3] == [2, 3];
  }

  lemma NodesAdded()
    ensures FieldOp(WithFields(FourFields(), [[], [0, 1], [], [2, 3], [], []]), 1, "nodes")
         == WithFields(FourFields() + [FieldRec("nodes", 6)], [[], [0, 1, 4], [], [2, 3], [], [], []])
  {
    assert [0, 1] + [4] == [0, 1, 4];
  }

  lemma NameAdded()
    ensures FieldOp(WithFields(FourFields() + [FieldRec("nodes", 6)], [[], [0, 1, 4], [], [2, 3], [], [], []]), 6, "name")
         == WithFields(FourFields() + [FieldRec("nodes", 6), FieldRec("name", 7)], [[], [0, 1, 4], [], [2, 3], [], [], [5], []])
  {
    assert [] + [5] == [5];
  }

  lemma LoginAdded()
    ensures FieldOp(WithFields(FourFields() + [FieldRec("nodes", 6), FieldRec("name", 7)], [[], [0, 1, 4], [], [2, 3], [], [], [5], []]), 6, "login")
         == WithFields(FourFields() + [FieldRec("nodes", 6), FieldRec("name", 7), FieldRec("login", 8)],
                       [[], [0, 1, 4], [], [2, 3], [], [], [5, 6], [], []])
  {
    assert [5] + [6] == [5, 6];
  }

  lemma AvatarUrlAdded()
    ensures FieldOp(WithFields(FourFields() + [FieldRec("nodes", 6), FieldRec("name", 7), FieldRec("login", 8)],
                               [[], [0, 1, 4], [], [2, 3], [], [], [5, 6], [], []]), 6, "avatarUrl")
         == OrganizationArena()
  {
    assert [5, 6] + [7] == [5, 6, 7];
    assert FourFields() + [FieldRec("nodes", 6), FieldRec("name", 7), FieldRec("login", 8)] + [FieldRec("avatarUrl", 9)]
        == OrganizationArena().fields;
  }

  /** The root's arguments callback: `Org` and `Items` required, `Cursor` optional. */
  method DeclareVariables(h: Builders, x: nat)
    requires h.Ok() && h.Contents() == NewOp(EmptyArena(), "query") && x == 0
    modifies h
    ensures h.Ok() && h.Contents() == Arena([Org, Items, Cursor], [RootArguments], [], [[]], [Root])
  {
    var v := h.Var(x, "Org", "");
    v := h.String(v);
    v := h.Required(v);
    OrgDeclared();
    v := h.Var(x, "Items", "");
    v := h.Int(v);
    v := h.Required(v);
    ItemsDeclared();
    v := h.Var(x, "Cursor", "");
    v := h.String(v);
    CursorDeclared();
  }

  /** The organization's arguments callback. */
  method PassParams(h: Builders, x: nat)
    requires h.Ok() && x == 1
    requires h.Contents() == Arena([Org, Items, Cursor], [RootArguments, ArgumentsRec([], [])], [], [[], []], [Root.(children := [1]), Child])
    modifies h
    ensures h.Ok() && h.Contents() == WithFields([], [[], []])
  {
    h.Param(x, "first", "$Items");
    h.Param(x, "after", "$Cursor");
    ParamsPassed();
  }

  /** The callback of `pageInfo`'s `Select`. */
  method PageInfoFields(h: Builders, s: nat)
    requires h.Ok() && s == 3 && h.Contents() == WithFields([FieldRec("totalCount", 2), FieldRec("pageInfo", 3)], [[], [0, 1], [], []])
    modifies h
    ensures h.Ok() && h.Contents() == WithFields(FourFields(), [[], [0, 1], [], [2, 3], [], []])
  {
    var f := h.Field(s, "endCursor");
    EndCursorAdded();
    f := h.Field(s, "hasNextPage");
    HasNextPageAdded();
  }

  /** The callback of `nodes`'s `Select`. */
  method NodesFields(h: Builders, s: nat)
    requires h.Ok() && s == 6 && h.Contents() == WithFields(FourFields() + [FieldRec("nodes", 6)], [[], [0, 1, 4], [], [2, 3], [], [], []])
    modifies h
    ensures h.Ok() && h.Contents() == OrganizationArena()
  {
    var f := h.Field(s, "name");
    NameAdded();
    f := h.Field(s, "login");
    LoginAdded();
    f := h.Field(s, "avatarUrl");
    AvatarUrlAdded();
  }

  /** The organization's select callback. */
  method SelectOrganization(h: Builders, s: nat)
    requires h.Ok() && s == 1 && h.Contents() == WithFields([], [[], []])
    modifies h
    ensures h.Ok() && h.Contents() == OrganizationArena()
  {
    var f := h.Field(s, "totalCount");
    TotalCountAdded();
    f := h.Field(s, "pageInfo");
    PageInfoAdded();
    var inner := h.Select(f);
    PageInfoFields(h, inner);
    f := h.Field(s, "nodes");
    NodesAdded();
    inner := h.Select(f);
    NodesFields(h, inner);
  }

  /** `Build(Indented)` and `Build()` on the organization node. */
  method BuildBoth(h: Builders, organization: nat) returns (indented: string, compact: string)
    requires h.Ok() && h.Contents() == OrganizationArena() && organization == 1
    ensures indented == Join(NewLine, IndentedTexts(Scenarios.OrganizationLines()))
    ensures compact == Join(" ", Texts(Scenarios.OrganizationLines()))
  {
    OrganizationArenaNode();
    indented := h.Build(organization, Indented);
    compact := h.Build(organization, Compact);
    Scenarios.OrganizationIndented();
    Scenarios.OrganizationCompact();
  }

  /**
   * `GraphQLQueryBuilder.New("query", …).Query("organization", …, …)`, then `Build(Indented)` and `Build()` on the
   * child `Query` returns: the two documents the tests expect.
   */
  method CreateQuery() returns (indented: string, compact: string)
    ensures indented == Join(NewLine, IndentedTexts(Scenarios.OrganizationLines()))
    ensures compact == Join(" ", Texts(Scenarios.OrganizationLines()))
  {
    var h := new Builders();
    var root, args, select := h.New("query");
    DeclareVariables(h, args);
    var organization;
    organization, args, select := h.Query(root, "organization");
    OrganizationQueried();
    PassParams(h, args);
    SelectOrganization(h, select);
    indented, compact := BuildBoth(h, organization);
  }
}
