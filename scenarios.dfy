/** The documents the repository's own builder tests expect, and the small cases of the serialiser's layout rules. */
module Scenarios {
  import opened Text
  import VariableBuilder
  import ArgumentsBuilder
  import SelectBuilder
  import QueryBuilder

  function Leaf(name: string): SelectBuilder.Field
  {
    SelectBuilder.Field(name, SelectBuilder.Selection([]))
  }

  /** The organization query's root arguments: `Org` and `Items` required, `Cursor` optional. */
  function OrganizationVariables(): ArgumentsBuilder.Arguments
  {
    ArgumentsBuilder.Arguments(
      [VariableBuilder.Variable("Org", "", "String", true),
       VariableBuilder.Variable("Items", "", "Int", true),
       VariableBuilder.Variable("Cursor", "", "String", false)],
      [])
  }

  function OrganizationParams(): ArgumentsBuilder.Arguments
  {
    ArgumentsBuilder.Arguments([], [ArgumentsBuilder.Entry("first", "$Items"), ArgumentsBuilder.Entry("after", "$Cursor")])
  }

  function OrganizationSelection(): SelectBuilder.Selection
  {
    SelectBuilder.Selection([
      Leaf("totalCount"),
      SelectBuilder.Field("pageInfo", SelectBuilder.Selection([Leaf("endCursor"), Leaf("hasNextPage")])),
      SelectBuilder.Field("nodes", SelectBuilder.Selection([Leaf("name"), Leaf("login"), Leaf("avatarUrl")]))])
  }

  /** The tree `CreateQueryTest` builds: a `query` root with one child `organization`. */
  function Organization(): QueryBuilder.Node
  {
    QueryBuilder.Node("query", OrganizationVariables(), SelectBuilder.Selection([]),
      [QueryBuilder.Node("organization", OrganizationParams(), OrganizationSelection(), [], 1)], 0)
  }

  /** The root's clause lists the three declarations in order, `!` on the required ones. */
  lemma OrganizationVariablesBuild()
    ensures ArgumentsBuilder.Build(OrganizationVariables()) == Join(", ", ["$Org:String!", "$Items:Int!", "$Cursor:String"])
  {
    var vs := OrganizationVariables().variables;
    assert VariableBuilder.Build(vs[0]) == "$Org:String!";
    assert VariableBuilder.Build(vs[1]) == "$Items:Int!";
    assert VariableBuilder.Build(vs[2]) == "$Cursor:String";
    assert ArgumentsBuilder.VariableParts(vs) + ArgumentsBuilder.EntryParts([]) == ["$Org:String!", "$Items:Int!", "$Cursor:String"];
  }

  /** Arguments render in insertion order: `first:$Items` before `after:$Cursor`. */
  lemma OrganizationParamsBuild()
    ensures ArgumentsBuilder.Build(OrganizationParams()) == Join(", ", ["first:$Items", "after:$Cursor"])
  {
    var ps := OrganizationParams().params;
    assert ArgumentsBuilder.EntryBuild(ps[0]) == "first:$Items";
    assert ArgumentsBuilder.EntryBuild(ps[1]) == "after:$Cursor";
    assert ArgumentsBuilder.VariableParts([]) + ArgumentsBuilder.EntryParts(ps) == ["first:$Items", "after:$Cursor"];
  }

  /** The head line of a node with a non-empty argument clause; used by both nodes of the organization query. */
  lemma HeadText(name: string, list: string)
    ensures name + ("(" + list + ")") + " {" == name + "(" + list + ") {"
  {
  }

  function PageInfo(): SelectBuilder.Field
  {
    SelectBuilder.Field("pageInfo", SelectBuilder.Selection([Leaf("endCursor"), Leaf("hasNextPage")]))
  }

  function Nodes(): SelectBuilder.Field
  {
    SelectBuilder.Field("nodes", SelectBuilder.Selection([Leaf("name"), Leaf("login"), Leaf("avatarUrl")]))
  }

  /** The lines `CreateQueryTest` and `CreateQueryWithoutFormatTest` expect, with their indentation levels. */
  function OrganizationLines(): seq<Line>
  {
    [Line(0, "query(" + Join(", ", ["$Org:String!", "$Items:Int!", "$Cursor:String"]) + ") {")]
      + ChildLines()
      + [Line(0, "}")]
  }

  function ChildLines(): seq<Line>
  {
    [Line(1, "organization(" + Join(", ", ["first:$Items", "after:$Cursor"]) + ") {")]
      + SelectionLines()
      + [Line(1, "}")]
  }

  /** A field whose child selection is made of leaves only: its opening line, one line per leaf, its closing line. */
  lemma LeafBlockLines(name: string, leaves: seq<string>, n: nat)
    requires |leaves| > 0
    ensures SelectBuilder.FieldLines(SelectBuilder.Field(name, SelectBuilder.Selection(seq(|leaves|, i requires 0 <= i < |leaves| => Leaf(leaves[i])))), n)
         == [Line(n, name + " {")] + seq(|leaves|, i requires 0 <= i < |leaves| => Line(n + 1, leaves[i])) + [Line(n, "}")]
  {
    LeavesLines(leaves, n + 1);
  }

  lemma {:induction false} LeavesLines(leaves: seq<string>, n: nat)
    ensures SelectBuilder.FieldsLines(seq(|leaves|, i requires 0 <= i < |leaves| => Leaf(leaves[i])), n)
         == seq(|leaves|, i requires 0 <= i < |leaves| => Line(n, leaves[i]))
  {
    var fs := seq(|leaves|, i requires 0 <= i < |leaves| => Leaf(leaves[i]));
    if leaves != [] {
      assert fs[1..] == seq(|leaves[1..]|, i requires 0 <= i < |leaves[1..]| => Leaf(leaves[1..][i]));
      LeavesLines(leaves[1..], n);
      assert SelectBuilder.FieldLines(fs[0], n) == [Line(n, leaves[0])];
    }
  }

  lemma PageInfoLines()
    ensures SelectBuilder.FieldLines(PageInfo(), 2) == [Line(2, "pageInfo {"), Line(3, "endCursor"), Line(3, "hasNextPage"), Line(2, "}")]
  {
    var leaves := ["endCursor", "hasNextPage"];
    assert PageInfo() == SelectBuilder.Field("pageInfo", SelectBuilder.Selection(seq(|leaves|, i requires 0 <= i < |leaves| => Leaf(leaves[i]))));
    LeafBlockLines("pageInfo", leaves, 2);
    assert "pageInfo" + " {" == "pageInfo {";
    assert seq(|leaves|, i requires 0 <= i < |leaves| => Line(3, leaves[i])) == [Line(3, "endCursor"), Line(3, "hasNextPage")];
  }

  lemma NodesLines()
    ensures SelectBuilder.FieldLines(Nodes(), 2) == [Line(2, "nodes {"), Line(3, "name"), Line(3, "login"), Line(3, "avatarUrl"), Line(2, "}")]
  {
    var leaves := ["name", "login", "avatarUrl"];
    assert Nodes() == SelectBuilder.Field("nodes", SelectBuilder.Selection(seq(|leaves|, i requires 0 <= i < |leaves| => Leaf(leaves[i]))));
    LeafBlockLines("nodes", leaves, 2);
    assert "nodes" + " {" == "nodes {";
    assert seq(|leaves|, i requires 0 <= i < |leaves| => Line(3, leaves[i])) == [Line(3, "name"), Line(3, "login"), Line(3, "avatarUrl")];
  }

  /** Compact, `pageInfo` and its two leaves make one block on one line. */
  lemma PageInfoCompact()
    ensures SelectBuilder.FieldBuild(PageInfo(), 2, Compact) == "pageInfo { endCursor hasNextPage }"
  {
    var inner := PageInfo().child;
    assert SelectBuilder.FieldBuild(inner.fields[0], 3, Compact) == "" + "endCursor" == "endCursor";
    assert SelectBuilder.FieldBuild(inner.fields[1], 3, Compact) == "" + "hasNextPage" == "hasNextPage";
    assert inner.fields[1..] == [Leaf("hasNextPage")];
    assert SelectBuilder.FieldBuilds(inner.fields, 3, Compact) == ["endCursor"] + (["hasNextPage"] + []);
    Join2(" ", "endCursor", "hasNextPage");
    PageInfoText();
  }

  /** The final string identity of the lemma above, proved on its own over plain literals so the unfoldings there stay small. */
  lemma PageInfoText()
    ensures "" + "pageInfo" + (" {" + " " + ("endCursor" + " " + "hasNextPage") + " " + "" + "}") == "pageInfo { endCursor hasNextPage }"
  {
  }

  /** The lines of the `organization` node's selection, at level 2. */
  function SelectionLines(): seq<Line>
  {
    [Line(2, "totalCount"),
     Line(2, "pageInfo {"), Line(3, "endCursor"), Line(3, "hasNextPage"), Line(2, "}"),
     Line(2, "nodes {"), Line(3, "name"), Line(3, "login"), Line(3, "avatarUrl"), Line(2, "}")]
  }

  lemma OrganizationSelectionLines()
    ensures SelectBuilder.Lines(OrganizationSelection(), 2) == SelectionLines()
  {
    var fs := OrganizationSelection().fields;
    assert fs[1] == PageInfo() && fs[2] == Nodes();
    PageInfoLines();
    NodesLines();
    assert SelectBuilder.FieldsLines(fs[2..], 2) == SelectBuilder.FieldLines(Nodes(), 2);
    assert SelectBuilder.FieldsLines(fs[1..], 2) == SelectBuilder.FieldLines(PageInfo(), 2) + SelectBuilder.FieldLines(Nodes(), 2);
  }

  lemma OrganizationChildLines()
    ensures QueryBuilder.NodeLines(Organization().children[0]) == ChildLines()
  {
    var child := Organization().children[0];
    OrganizationParamsBuild();
    HeadText("organization", Join(", ", ["first:$Items", "after:$Cursor"]));
    assert "organization" + "(" == "organization(";
    OrganizationSelectionLines();
    assert QueryBuilder.BodyLines(child) == SelectionLines();
  }

  /** The tree of the organization query has exactly the fourteen expected lines. */
  lemma OrganizationNodeLines()
    ensures QueryBuilder.NodeLines(Organization()) == OrganizationLines()
  {
    var root := Organization();
    OrganizationChildLines();
    OrganizationVariablesBuild();
    HeadText("query", Join(", ", ["$Org:String!", "$Items:Int!", "$Cursor:String"]));
    assert "query" + "(" == "query(";
    assert QueryBuilder.ChildrenLines(root.children) == QueryBuilder.NodeLines(root.children[0]);
    assert QueryBuilder.BodyLines(root) == QueryBuilder.NodeLines(root.children[0]);
  }

  /** In both layouts the organization query is the document of those lines. */
  lemma OrganizationBuild(fmt: Formatting)
    ensures QueryBuilder.ChildBuild(Organization(), fmt) == Render(OrganizationLines(), fmt)
  {
    QueryBuilder.BuildLines(Organization(), fmt);
    OrganizationNodeLines();
  }

  /** `CreateQueryWithoutFormatTest`: compact, the fourteen texts joined by single spaces, as written and as intended. */
  lemma OrganizationCompact()
    ensures QueryBuilder.WrittenChildBuild(Organization(), Compact) == Join(" ", Texts(OrganizationLines()))
    ensures QueryBuilder.ChildBuild(Organization(), Compact) == Join(" ", Texts(OrganizationLines()))
  {
    OrganizationBuild(Compact);
    RenderCompact(OrganizationLines());
    OrganizationWritten(Compact);
  }

  /** `CreateQueryTest`: indented, every line is four spaces per level followed by its text, lines separated by line feeds. */
  lemma OrganizationIndented()
    ensures QueryBuilder.WrittenChildBuild(Organization(), Indented) == Join(NewLine, IndentedTexts(OrganizationLines()))
    ensures QueryBuilder.ChildBuild(Organization(), Indented) == Join(NewLine, IndentedTexts(OrganizationLines()))
  {
    OrganizationBuild(Indented);
    RenderIndented(OrganizationLines());
    OrganizationWritten(Indented);
  }

  /** No node of the organization tree has both fields and children, so the code as written renders it the same way. */
  lemma OrganizationWritten(fmt: Formatting)
    ensures QueryBuilder.NoAbut(Organization())
    ensures QueryBuilder.WrittenChildBuild(Organization(), fmt) == QueryBuilder.ChildBuild(Organization(), fmt)
  {
    var root := Organization();
    assert QueryBuilder.NoAbut(root.children[0]);
    QueryBuilder.WrittenAgrees(root, fmt);
  }

  /** A root `query` declaring `$X:Int!`, with one child `foo(id:$X)` selecting `bar`. */
  function Foo(): QueryBuilder.Node
  {
    QueryBuilder.Node("query", ArgumentsBuilder.Arguments([VariableBuilder.Variable("X", "", "Int", true)], []), SelectBuilder.Selection([]),
      [QueryBuilder.Node("foo", ArgumentsBuilder.Arguments([], [ArgumentsBuilder.Entry("id", "$X")]), SelectBuilder.Selection([Leaf("bar")]), [], 1)], 0)
  }

  lemma FooChildCompact()
    ensures QueryBuilder.WrittenChildBuild(Foo().children[0], Compact) == "foo(id:$X) { bar }"
    ensures QueryBuilder.ChildBuild(Foo().children[0], Compact) == "foo(id:$X) { bar }"
  {
    var child := Foo().children[0];
    QueryBuilder.WrittenAgrees(child, Compact);
    assert ArgumentsBuilder.EntryBuild(child.arguments.params[0]) == "id:$X";
    assert ArgumentsBuilder.VariableParts([]) + ArgumentsBuilder.EntryParts(child.arguments.params) == ["id:$X"];
    assert QueryBuilder.ArgumentClause(child.arguments) == "(id:$X)";
    assert QueryBuilder.Body(child, Compact) == "bar";
    CompactBlock(1, "foo" + "(id:$X)", "bar");
    assert "foo" + "(id:$X)" == "foo(id:$X)";
  }

  lemma FooCompact()
    ensures QueryBuilder.WrittenChildBuild(Foo(), Compact) == "query($X:Int!) { foo(id:$X) { bar } }"
    ensures QueryBuilder.ChildBuild(Foo(), Compact) == "query($X:Int!) { foo(id:$X) { bar } }"
  {
    var root := Foo();
    assert QueryBuilder.NoAbut(root.children[0]);
    QueryBuilder.WrittenAgrees(root, Compact);
    FooChildCompact();
    assert QueryBuilder.ArgumentClause(root.arguments) == "($X:Int!)" by {
      assert VariableBuilder.Build(root.arguments.variables[0]) == "$X:Int!";
      assert ArgumentsBuilder.VariableParts(root.arguments.variables) + ArgumentsBuilder.EntryParts([]) == ["$X:Int!"];
    }
    assert QueryBuilder.ChildBuilds(root.children, Compact) == ["foo(id:$X) { bar }"];
    assert QueryBuilder.Body(root, Compact) == "foo(id:$X) { bar }";
    CompactBlock(0, "query" + "($X:Int!)", "foo(id:$X) { bar }");
    assert "query" + "($X:Int!)" == "query($X:Int!)";
    FooText();
  }

  /** The final string identity of the lemma above, proved on its own over plain literals so the unfoldings there stay small. */
  lemma FooText()
    ensures "query($X:Int!)" + " { " + "foo(id:$X) { bar }" + " }" == "query($X:Int!) { foo(id:$X) { bar } }"
  {
  }

  /** An unnamed root with one child `ping` that has no arguments and no fields: both blocks are written, empty. */
  function Ping(): QueryBuilder.Node
  {
    QueryBuilder.Node("", ArgumentsBuilder.Arguments([], []), SelectBuilder.Selection([]), [QueryBuilder.Bare("ping", 1)], 0)
  }

  lemma PingCompact()
    ensures QueryBuilder.WrittenChildBuild(Ping(), Compact) == " { ping {  } }"
    ensures QueryBuilder.ChildBuild(Ping(), Compact) == " { ping {  } }"
  {
    var root := Ping();
    PingIntended();
    assert QueryBuilder.NoAbut(root.children[0]);
    QueryBuilder.WrittenAgrees(root, Compact);
  }

  /** The intended half of the lemma above, proved apart so that each half unfolds only one rendering. */
  lemma PingIntended()
    ensures QueryBuilder.ChildBuild(Ping(), Compact) == " { ping {  } }"
  {
    var root := Ping();
    QueryBuilder.CompactBareNode("ping", 1);
    assert "ping" + " {  }" == "ping {  }";
    assert QueryBuilder.ChildBuilds(root.children, Compact)[0] == QueryBuilder.ChildBuild(QueryBuilder.Bare("ping", 1), Compact);
    assert QueryBuilder.ChildBuilds(root.children, Compact) == ["ping {  }"];
    assert QueryBuilder.Body(root, Compact) == "ping {  }";
  }

  /** Declared variables come first, then the named arguments: `$A:String, $B:Int!, limit:10`. */
  lemma MixedArguments()
    ensures ArgumentsBuilder.Build(ArgumentsBuilder.Arguments(
              [VariableBuilder.Variable("A", "", "String", false), VariableBuilder.Variable("B", "", "Int", true)],
              [ArgumentsBuilder.Entry("limit", "10")]))
         == "$A:String, $B:Int!, limit:10"
  {
    var vs := [VariableBuilder.Variable("A", "", "String", false), VariableBuilder.Variable("B", "", "Int", true)];
    assert VariableBuilder.Build(vs[0]) == "$A:String";
    assert VariableBuilder.Build(vs[1]) == "$B:Int!";
    assert ArgumentsBuilder.EntryBuild(ArgumentsBuilder.Entry("limit", "10")) == "limit:10";
    assert ArgumentsBuilder.VariableParts(vs) + ArgumentsBuilder.EntryParts([ArgumentsBuilder.Entry("limit", "10")])
        == ["$A:String", "$B:Int!", "limit:10"];
    Join3(", ", "$A:String", "$B:Int!", "limit:10");
    MixedText();
  }

  /** The final string identity of the lemma above, proved on its own over plain literals so the unfoldings there stay small. */
  lemma MixedText()
    ensures "$A:String" + ", " + "$B:Int!" + ", " + "limit:10" == "$A:String, $B:Int!, limit:10"
  {
  }

  /** The shape of `TestGithubGraphQlQuery`'s `user` node: a field `name` and a child `pullRequests`. */
  function User(): QueryBuilder.Node
  {
    QueryBuilder.Node("user", ArgumentsBuilder.Arguments([], []), SelectBuilder.Selection([Leaf("name")]), [QueryBuilder.Bare("pullRequests", 2)], 1)
  }

  lemma UserChild()
    ensures QueryBuilder.ChildBuilds(User().children, Compact) == ["pullRequests {  }"]
    ensures QueryBuilder.WrittenChildBuilds(User().children, Compact) == ["pullRequests {  }"]
  {
    var t := User();
    QueryBuilder.CompactBareNode("pullRequests", 2);
    assert "pullRequests" + " {  }" == "pullRequests {  }";
    QueryBuilder.WrittenAgrees(t.children[0], Compact);
    assert QueryBuilder.WrittenChildBuilds(t.children, Compact)[0] == QueryBuilder.WrittenChildBuild(t.children[0], Compact);
    assert QueryBuilder.ChildBuilds(t.children, Compact)[0] == QueryBuilder.ChildBuild(t.children[0], Compact);
  }

  lemma UserField()
    ensures SelectBuilder.Build(User().select, 2, Compact) == "name"
  {
  }

  /** The body as written: the field, then the joined children with nothing between. */
  lemma UserWrittenBody()
    ensures QueryBuilder.WrittenBody(User(), Compact) == "namepullRequests {  }"
  {
    UserChild();
    UserField();
    assert QueryBuilder.WrittenBody(User(), Compact) == "name" + "pullRequests {  }";
  }

  /** The intended body: the field, a separator, then the children. */
  lemma UserBody()
    ensures QueryBuilder.Body(User(), Compact) == "name pullRequests {  }"
  {
    UserChild();
    UserField();
    assert QueryBuilder.Body(User(), Compact) == "name" + " " + "pullRequests {  }";
  }

  /** As written, the field runs into the child: `namepullRequests`. */
  lemma UserWritten()
    ensures QueryBuilder.WrittenChildBuild(User(), Compact) == "user { namepullRequests {  } }"
  {
    var t := User();
    UserWrittenBody();
    assert QueryBuilder.WrittenChildBuild(t, Compact)
        == Block(Indent(1, Compact), "user" + "", Separator(Compact), "namepullRequests {  }");
    CompactBlock(1, "user" + "", "namepullRequests {  }");
    assert "user" + "" == "user";
    WrittenText();
  }

  /** The final string identity of the lemma above, proved on its own over plain literals so the unfoldings there stay small. */
  lemma WrittenText()
    ensures "user" + " { " + "namepullRequests {  }" + " }" == "user { namepullRequests {  } }"
  {
  }

  /** The final string identity of the lemma above, proved on its own over plain literals so the unfoldings there stay small. */
  lemma IntendedText()
    ensures "user" + " { " + "name pullRequests {  }" + " }" == "user { name pullRequests {  } }"
  {
  }

  /** With the separator, the field and the child stay apart: `name pullRequests`. */
  lemma UserIntended()
    ensures QueryBuilder.ChildBuild(User(), Compact) == "user { name pullRequests {  } }"
  {
    var t := User();
    UserBody();
    assert QueryBuilder.ChildBuild(t, Compact)
        == Block(Indent(1, Compact), "user" + "", Separator(Compact), "name pullRequests {  }");
    CompactBlock(1, "user" + "", "name pullRequests {  }");
    assert "user" + "" == "user";
    IntendedText();
  }

  /** A node with both a field and a child is where the code as written and the intended document part ways. */
  lemma UserFieldsAbutChildren()
    ensures QueryBuilder.WrittenChildBuild(User(), Compact) != QueryBuilder.ChildBuild(User(), Compact)
    ensures !QueryBuilder.NoAbut(User())
  {
    UserWritten();
    UserIntended();
    assert "user { namepullRequests {  } }"[11] != "user { name pullRequests {  } }"[11];
  }
}
