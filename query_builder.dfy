/** `GraphQLQueryBuilder`'s recursive serialiser `ChildBuild`, over the value of a query tree. */
module QueryBuilder {
  import opened Text
  import ArgumentsBuilder
  import SelectBuilder

  /**
   * A query node as `ChildBuild` reads it: `_objectToQuery`, `_arguments`, `_select`, `_children` in the order
   * they were added, and the nesting depth `_nesting` stored when the node was made.
   */
  datatype Node = Node(
    name: string,
    arguments: ArgumentsBuilder.Arguments,
    select: SelectBuilder.Selection,
    children: seq<Node>,
    nesting: nat)

  /** A node with no arguments, no fields and no children: what `New(name)` and `Query(name)` make before any configuration. */
  function Bare(name: string, nesting: nat): (t: Node)
    ensures t.name == name && t.nesting == nesting && t.children == []
    ensures ArgumentsBuilder.Empty(t.arguments) && SelectBuilder.Empty(t.select)
  {
    Node(name, ArgumentsBuilder.Arguments([], []), SelectBuilder.Selection([]), [], nesting)
  }

  /** `builtArguments`: nothing for an empty argument set, otherwise the set's list in parentheses. */
  function ArgumentClause(a: ArgumentsBuilder.Arguments): (r: string)
    ensures r == "" <==> ArgumentsBuilder.Empty(a)
    ensures !ArgumentsBuilder.Empty(a) ==> r == "(" + ArgumentsBuilder.Build(a) + ")"
  {
    if ArgumentsBuilder.Empty(a) then "" else "(" + ArgumentsBuilder.Build(a) + ")"
  }

  /**
   * `ChildBuild(formatting)` as the query document is meant to read: the prefix, the name and the argument
   * clause, then ` {`, the separator, the inside, the separator, the prefix and `}`.
   */
  function ChildBuild(t: Node, fmt: Formatting): (r: string)
    ensures |r| > 0
    decreases t, 1
  {
    Block(Indent(t.nesting, fmt), t.name + ArgumentClause(t.arguments), Separator(fmt), Body(t, fmt))
  }

  /**
   * The inside of a node's block: its fields at one level deeper and its children (each at its own stored
   * nesting) joined by the separator; when a node has both, one separator stands between the last field and
   * the first child.
   */
  function Body(t: Node, fmt: Formatting): (r: string)
    ensures SelectBuilder.Empty(t.select) && t.children == [] ==> r == ""
    decreases t, 0
  {
    Inside(SelectBuilder.Build(t.select, t.nesting + 1, fmt), Join(Separator(fmt), ChildBuilds(t.children, fmt)),
      SelectBuilder.Empty(t.select), t.children == [], Separator(fmt))
  }

  /** How a block's inside puts its fields and its children together: either one alone, or both around one separator. */
  function Inside(fields: string, children: string, noFields: bool, noChildren: bool, sep: string): string
  {
    if noFields then children else if noChildren then fields else fields + sep + children
  }

  /** Each child rendered by `ChildBuild`. */
  function ChildBuilds(ts: seq<Node>, fmt: Formatting): (r: seq<string>)
    ensures |r| == |ts|
    decreases ts, 0
  {
    if ts == [] then [] else [ChildBuild(ts[0], fmt)] + ChildBuilds(ts[1..], fmt)
  }

  /**
   * `ChildBuild(formatting)` exactly as the code writes it: the fields and the joined children are concatenated
   * with nothing between them, so a node with both runs its last field into its first child.
   */
  function WrittenChildBuild(t: Node, fmt: Formatting): (r: string)
    ensures |r| > 0
    decreases t, 1
  {
    Block(Indent(t.nesting, fmt), t.name + ArgumentClause(t.arguments), Separator(fmt), WrittenBody(t, fmt))
  }

  function WrittenBody(t: Node, fmt: Formatting): (r: string)
    ensures SelectBuilder.Empty(t.select) ==> r == Join(Separator(fmt), WrittenChildBuilds(t.children, fmt))
    ensures t.children == [] ==> r == SelectBuilder.Build(t.select, t.nesting + 1, fmt)
    decreases t, 0
  {
    SelectBuilder.Build(t.select, t.nesting + 1, fmt) + Join(Separator(fmt), WrittenChildBuilds(t.children, fmt))
  }

  function WrittenChildBuilds(ts: seq<Node>, fmt: Formatting): (r: seq<string>)
    ensures |r| == |ts|
    decreases ts, 0
  {
    if ts == [] then [] else [WrittenChildBuild(ts[0], fmt)] + WrittenChildBuilds(ts[1..], fmt)
  }

  /** No node of the tree has both fields and children: the only shape the code as written renders as meant. */
  predicate NoAbut(t: Node)
    decreases t
  {
    && (SelectBuilder.Empty(t.select) || t.children == [])
    && forall i :: 0 <= i < |t.children| ==> NoAbut(t.children[i])
  }

  /** On trees where no node has both fields and children, the code as written and the intended rendering agree. */
  lemma {:induction false} WrittenAgrees(t: Node, fmt: Formatting)
    requires NoAbut(t)
    ensures WrittenChildBuild(t, fmt) == ChildBuild(t, fmt)
    decreases t, 1
  {
    WrittenChildBuildsAgree(t.children, fmt);
    assert WrittenBody(t, fmt) == Body(t, fmt);
  }

  lemma {:induction false} WrittenChildBuildsAgree(ts: seq<Node>, fmt: Formatting)
    requires forall i :: 0 <= i < |ts| ==> NoAbut(ts[i])
    ensures WrittenChildBuilds(ts, fmt) == ChildBuilds(ts, fmt)
    decreases ts, 0
  {
    if ts != [] {
      WrittenAgrees(ts[0], fmt);
      assert forall i :: 0 <= i < |ts[1..]| ==> NoAbut(ts[1..][i]) by {
        forall i | 0 <= i < |ts[1..]| ensures NoAbut(ts[1..][i]) {
          assert ts[1..][i] == ts[i + 1];
        }
      }
      WrittenChildBuildsAgree(ts[1..], fmt);
    }
  }

  /** Every child sits one level below its parent, all the way down. */
  predicate WellNested(t: Node)
    decreases t
  {
    forall i :: 0 <= i < |t.children| ==> t.children[i].nesting == t.nesting + 1 && WellNested(t.children[i])
  }

  /** The layout-free reference rendering of a node: stripped name and arguments, then the braces around its fields and children. */
  function Skeleton(t: Node): string
    decreases t, 1
  {
    Strip(t.name + ArgumentClause(t.arguments)) + "{" + (SelectBuilder.Skeleton(t.select) + ChildrenSkeleton(t.children)) + "}"
  }

  function ChildrenSkeleton(ts: seq<Node>): string
    decreases ts, 0
  {
    if ts == [] then "" else Skeleton(ts[0]) + ChildrenSkeleton(ts[1..])
  }

  /** In either layout, removing spaces and line feeds from a rendered node leaves its skeleton. */
  lemma {:induction false} StripChildBuild(t: Node, fmt: Formatting)
    ensures Strip(ChildBuild(t, fmt)) == Skeleton(t)
    decreases t, 1
  {
    StripLayout(t.nesting, fmt);
    StripNode(Indent(t.nesting, fmt), t.name + ArgumentClause(t.arguments), Separator(fmt), Body(t, fmt));
    StripBody(t, fmt);
  }

  lemma {:induction false} StripBody(t: Node, fmt: Formatting)
    ensures Strip(Body(t, fmt)) == SelectBuilder.Skeleton(t.select) + ChildrenSkeleton(t.children)
    decreases t, 0
  {
    SelectBuilder.StripBuild(t.select, t.nesting + 1, fmt);
    StripJoinedChildren(t.children, fmt);
    StripBodyParts(t, fmt);
  }

  lemma {:induction false} StripBodyParts(t: Node, fmt: Formatting)
    requires Strip(SelectBuilder.Build(t.select, t.nesting + 1, fmt)) == SelectBuilder.Skeleton(t.select)
    requires Strip(Join(Separator(fmt), ChildBuilds(t.children, fmt))) == ChildrenSkeleton(t.children)
    ensures Strip(Body(t, fmt)) == SelectBuilder.Skeleton(t.select) + ChildrenSkeleton(t.children)
  {
    var fields, children := SelectBuilder.Build(t.select, t.nesting + 1, fmt), Join(Separator(fmt), ChildBuilds(t.children, fmt));
    assert Body(t, fmt) == Inside(fields, children, SelectBuilder.Empty(t.select), t.children == [], Separator(fmt));
    StripLayout(0, fmt);
    StripInsideCases(fields, children, SelectBuilder.Empty(t.select), t.children == [], Separator(fmt));
  }

  /** The joined children strip to their skeletons, side by side. */
  lemma {:induction false} StripJoinedChildren(ts: seq<Node>, fmt: Formatting)
    ensures Strip(Join(Separator(fmt), ChildBuilds(ts, fmt))) == ChildrenSkeleton(ts)
    decreases ts, 1
  {
    StripLayout(0, fmt);
    StripJoin(Separator(fmt), ChildBuilds(ts, fmt));
    StripChildBuilds(ts, fmt);
  }

  /** Stripping a block's inside strips its fields and its children separately: the separator between them vanishes. */
  lemma StripInside(fields: string, children: string, noFields: bool, noChildren: bool, sep: string)
    ensures Strip(sep) == "" && (noFields ==> fields == "") && (noChildren ==> children == "") ==>
      Strip(Inside(fields, children, noFields, noChildren, sep)) == Strip(fields) + Strip(children)
  {
    if Strip(sep) == "" && (noFields ==> fields == "") && (noChildren ==> children == "") {
      StripInsideCases(fields, children, noFields, noChildren, sep);
    }
  }

  lemma StripInsideCases(fields: string, children: string, noFields: bool, noChildren: bool, sep: string)
    requires Strip(sep) == ""
    requires noFields ==> fields == ""
    requires noChildren ==> children == ""
    ensures Strip(Inside(fields, children, noFields, noChildren, sep)) == Strip(fields) + Strip(children)
  {
    if noFields {
      assert "" + Strip(children) == Strip(children);
    } else if noChildren {
      assert Strip(fields) + "" == Strip(fields);
    } else {
      StripAround(fields, sep, children);
    }
  }

  lemma {:induction false} StripChildBuilds(ts: seq<Node>, fmt: Formatting)
    ensures StripAll(ChildBuilds(ts, fmt)) == ChildrenSkeleton(ts)
    decreases ts, 0
  {
    if ts != [] {
      StripAllCons(ChildBuild(ts[0], fmt), ChildBuilds(ts[1..], fmt));
      StripChildBuild(ts[0], fmt);
      StripChildBuilds(ts[1..], fmt);
    }
  }

  /**
   * The lines of a rendered node: its head opening the block at its own nesting, the lines of its fields one
   * level deeper, then the lines of its children, and `}` at its own nesting. A node with neither fields nor
   * children keeps one empty line between the braces.
   */
  function NodeLines(t: Node): (r: seq<Line>)
    ensures |r| >= 3
    decreases t, 1
  {
    [Line(t.nesting, t.name + ArgumentClause(t.arguments) + " {")] + BodyLines(t) + [Line(t.nesting, "}")]
  }

  function BodyLines(t: Node): (r: seq<Line>)
    ensures |r| > 0
    decreases t, 0
  {
    InsideLines(SelectBuilder.Lines(t.select, t.nesting + 1), ChildrenLines(t.children),
      SelectBuilder.Empty(t.select), t.children == [])
  }

  /** The lines of a block's inside: the field lines, then the child lines, or one empty line when there are none. */
  function InsideLines(fields: seq<Line>, children: seq<Line>, noFields: bool, noChildren: bool): seq<Line>
  {
    if noFields && noChildren then [Line(0, "")] else fields + children
  }

  function ChildrenLines(ts: seq<Node>): (r: seq<Line>)
    ensures r == [] <==> ts == []
    decreases ts, 0
  {
    if ts == [] then [] else NodeLines(ts[0]) + ChildrenLines(ts[1..])
  }

  /** In either layout a rendered node is exactly the document of its lines. */
  lemma {:induction false} BuildLines(t: Node, fmt: Formatting)
    ensures ChildBuild(t, fmt) == Render(NodeLines(t), fmt)
    decreases t, 1
  {
    BodyBuildLines(t, fmt);
    RenderBlock(t.nesting, t.name + ArgumentClause(t.arguments), BodyLines(t), fmt);
  }

  lemma {:induction false} BodyBuildLines(t: Node, fmt: Formatting)
    ensures Body(t, fmt) == Render(BodyLines(t), fmt)
    decreases t, 0
  {
    SelectBuilder.BuildLines(t.select, t.nesting + 1, fmt);
    ChildBuildsLines(t.children, fmt);
    BodyLinesParts(t, fmt);
  }

  lemma {:induction false} BodyLinesParts(t: Node, fmt: Formatting)
    requires SelectBuilder.Build(t.select, t.nesting + 1, fmt) == Render(SelectBuilder.Lines(t.select, t.nesting + 1), fmt)
    requires Join(Separator(fmt), ChildBuilds(t.children, fmt)) == Render(ChildrenLines(t.children), fmt)
    ensures Body(t, fmt) == Render(BodyLines(t), fmt)
  {
    RenderInside(SelectBuilder.Lines(t.select, t.nesting + 1), ChildrenLines(t.children),
      SelectBuilder.Empty(t.select), t.children == [], fmt);
  }

  /** A block's inside written from its two documents is the document of its lines. */
  lemma RenderInside(fields: seq<Line>, children: seq<Line>, noFields: bool, noChildren: bool, fmt: Formatting)
    ensures (noFields <==> fields == []) && (noChildren <==> children == []) ==>
      Inside(Render(fields, fmt), Render(children, fmt), noFields, noChildren, Separator(fmt))
      == Render(InsideLines(fields, children, noFields, noChildren), fmt)
  {
    if (noFields <==> fields == []) && (noChildren <==> children == []) {
      RenderInsideCases(fields, children, noFields, noChildren, fmt);
    }
  }

  lemma RenderInsideCases(fields: seq<Line>, children: seq<Line>, noFields: bool, noChildren: bool, fmt: Formatting)
    requires noFields <==> fields == []
    requires noChildren <==> children == []
    ensures Inside(Render(fields, fmt), Render(children, fmt), noFields, noChildren, Separator(fmt))
      == Render(InsideLines(fields, children, noFields, noChildren), fmt)
  {
    if fields == [] && children == [] {
    } else if fields == [] {
      assert fields + children == children;
    } else if children == [] {
      assert fields + children == fields;
    } else {
      RenderAppend(fields, children, fmt);
    }
  }

  lemma {:induction false} ChildBuildsLines(ts: seq<Node>, fmt: Formatting)
    ensures Join(Separator(fmt), ChildBuilds(ts, fmt)) == Render(ChildrenLines(ts), fmt)
    decreases ts, 0
  {
    if ts != [] {
      BuildLines(ts[0], fmt);
      ChildBuildsLines(ts[1..], fmt);
      ChildrenLinesCons(ts, fmt);
    }
  }

  /** The children's document grows by one node's document at the front, one separator apart. */
  lemma ChildrenLinesCons(ts: seq<Node>, fmt: Formatting)
    ensures ts != [] && ChildBuild(ts[0], fmt) == Render(NodeLines(ts[0]), fmt)
      && Join(Separator(fmt), ChildBuilds(ts[1..], fmt)) == Render(ChildrenLines(ts[1..]), fmt)
      ==> Join(Separator(fmt), ChildBuilds(ts, fmt)) == Render(ChildrenLines(ts), fmt)
  {
    if ts != [] {
      var head, rest := NodeLines(ts[0]), ChildrenLines(ts[1..]);
      assert ChildrenLines(ts) == head + rest;
      if ts[1..] == [] {
        assert head + rest == head;
      } else {
        assert ChildBuilds(ts, fmt)[1..] == ChildBuilds(ts[1..], fmt);
        RenderAppend(head, rest, fmt);
      }
    }
  }

  /**
   * In either layout, removing spaces and line feeds from the code's own rendering also leaves the skeleton:
   * the missing separator is layout, so only layout differs from the intended document.
   */
  lemma {:induction false} StripWrittenChildBuild(t: Node, fmt: Formatting)
    ensures Strip(WrittenChildBuild(t, fmt)) == Skeleton(t)
    decreases t, 1
  {
    StripLayout(t.nesting, fmt);
    StripNode(Indent(t.nesting, fmt), t.name + ArgumentClause(t.arguments), Separator(fmt), WrittenBody(t, fmt));
    StripWrittenBody(t, fmt);
  }

  lemma {:induction false} StripWrittenBody(t: Node, fmt: Formatting)
    ensures Strip(WrittenBody(t, fmt)) == SelectBuilder.Skeleton(t.select) + ChildrenSkeleton(t.children)
    decreases t, 0
  {
    SelectBuilder.StripBuild(t.select, t.nesting + 1, fmt);
    StripWrittenJoinedChildren(t.children, fmt);
    StripConcat(SelectBuilder.Build(t.select, t.nesting + 1, fmt), Join(Separator(fmt), WrittenChildBuilds(t.children, fmt)));
  }

  lemma {:induction false} StripWrittenJoinedChildren(ts: seq<Node>, fmt: Formatting)
    ensures Strip(Join(Separator(fmt), WrittenChildBuilds(ts, fmt))) == ChildrenSkeleton(ts)
    decreases ts, 1
  {
    StripLayout(0, fmt);
    StripJoin(Separator(fmt), WrittenChildBuilds(ts, fmt));
    StripWrittenChildBuilds(ts, fmt);
  }

  lemma {:induction false} StripWrittenChildBuilds(ts: seq<Node>, fmt: Formatting)
    ensures StripAll(WrittenChildBuilds(ts, fmt)) == ChildrenSkeleton(ts)
    decreases ts, 0
  {
    if ts != [] {
      StripAllCons(WrittenChildBuild(ts[0], fmt), WrittenChildBuilds(ts[1..], fmt));
      StripWrittenChildBuild(ts[0], fmt);
      StripWrittenChildBuilds(ts[1..], fmt);
    }
  }

  /**
   * The indented and the compact document differ only in layout: without spaces and line feeds they are equal,
   * for the code as written and for the intended rendering, and the two renderings agree with each other.
   */
  lemma LayoutOnly(t: Node)
    ensures Strip(WrittenChildBuild(t, Indented)) == Strip(WrittenChildBuild(t, Compact))
    ensures Strip(ChildBuild(t, Indented)) == Strip(ChildBuild(t, Compact))
    ensures Strip(WrittenChildBuild(t, Compact)) == Strip(ChildBuild(t, Compact))
  {
    StripWrittenChildBuild(t, Indented);
    StripWrittenChildBuild(t, Compact);
    StripChildBuild(t, Indented);
    StripChildBuild(t, Compact);
  }

  /** No node name, argument clause or field name of the tree holds a line feed. */
  predicate OneLineNames(t: Node)
    decreases t
  {
    && '\n' !in t.name
    && '\n' !in ArgumentClause(t.arguments)
    && SelectBuilder.OneLineNames(t.select)
    && forall i :: 0 <= i < |t.children| ==> OneLineNames(t.children[i])
  }

  /**
   * `None`, the compact formatting, writes one line: when no name, argument clause or field name holds a line
   * feed, neither the code as written nor the intended rendering puts one in the document.
   */
  lemma {:induction false} CompactOneLine(t: Node)
    requires OneLineNames(t)
    ensures '\n' !in WrittenChildBuild(t, Compact)
    ensures '\n' !in ChildBuild(t, Compact)
    decreases t, 1
  {
    SelectBuilder.CompactOneLine(t.select, t.nesting + 1);
    ChildrenOneLine(t.children);
    JoinOneLine(" ", WrittenChildBuilds(t.children, Compact));
    JoinOneLine(" ", ChildBuilds(t.children, Compact));
  }

  lemma {:induction false} ChildrenOneLine(ts: seq<Node>)
    requires forall i :: 0 <= i < |ts| ==> OneLineNames(ts[i])
    ensures forall i :: 0 <= i < |ts| ==> '\n' !in WrittenChildBuilds(ts, Compact)[i] && '\n' !in ChildBuilds(ts, Compact)[i]
    decreases ts, 0
  {
    if ts != [] {
      CompactOneLine(ts[0]);
      ChildrenOneLine(ts[1..]);
      var written, intended := WrittenChildBuilds(ts, Compact), ChildBuilds(ts, Compact);
      assert written == [WrittenChildBuild(ts[0], Compact)] + WrittenChildBuilds(ts[1..], Compact);
      assert intended == [ChildBuild(ts[0], Compact)] + ChildBuilds(ts[1..], Compact);
      assert forall i :: 1 <= i < |ts| ==> ts[1..][i - 1] == ts[i];
    }
  }

  /** A compact node with no arguments, no fields and no children still opens an (empty) block: `name {  }`. */
  lemma CompactBareNode(name: string, nesting: nat)
    ensures WrittenChildBuild(Bare(name, nesting), Compact) == name + " {  }"
    ensures ChildBuild(Bare(name, nesting), Compact) == name + " {  }"
  {
    var t := Bare(name, nesting);
    assert Join(" ", ChildBuilds(t.children, Compact)) == "";
    assert Join(" ", WrittenChildBuilds(t.children, Compact)) == "";
  }
}
