/**
 * `GraphQLSelectBuilder` and `GraphQLFieldBuilder`: a selection is an ordered list of fields,
 * and every field owns a nested selection that is rendered only when it is not empty.
 */
module SelectBuilder {
  import opened Text

  /** A field: its name and its always-present child selection `_child`. */
  datatype Field = Field(name: string, child: Selection)

  /** A selection: `_fields` in insertion order. */
  datatype Selection = Selection(fields: seq<Field>)

  /** `Empty`: the selection has no field. */
  predicate Empty(s: Selection)
  {
    |s.fields| == 0
  }

  /** `Field(name)`: one new field with that name and an empty child selection, after the existing ones. */
  function AddField(s: Selection, name: string): (r: Selection)
    ensures |r.fields| == |s.fields| + 1
    ensures r.fields[..|s.fields|] == s.fields
    ensures r.fields[|s.fields|] == Field(name, Selection([])) && Empty(r.fields[|s.fields|].child)
  {
    Selection(s.fields + [Field(name, Selection([]))])
  }

  /** `Build(nesting, formatting)`: every field rendered at the same level `n`, in order, separated by the layout's separator. */
  function Build(s: Selection, n: nat, fmt: Formatting): (r: string)
    ensures Empty(s) ==> r == ""
    ensures |s.fields| == 1 ==> r == FieldBuild(s.fields[0], n, fmt)
    decreases s, 1
  {
    Join(Separator(fmt), FieldBuilds(s.fields, n, fmt))
  }

  /** Each field rendered at level `n`. */
  function FieldBuilds(fs: seq<Field>, n: nat, fmt: Formatting): (r: seq<string>)
    ensures |r| == |fs|
    decreases fs, 0
  {
    if fs == [] then [] else [FieldBuild(fs[0], n, fmt)] + FieldBuilds(fs[1..], n, fmt)
  }

  /**
   * `GraphQLFieldBuilder.Build(nesting, formatting)`: the prefix and the name, followed, when the child selection
   * is not empty, by ` {`, the separator, the child at level `n + 1`, the separator, the prefix and `}`.
   */
  function FieldBuild(f: Field, n: nat, fmt: Formatting): (r: string)
    ensures Empty(f.child) ==> r == Indent(n, fmt) + f.name
    decreases f, 2
  {
    var spaces := Indent(n, fmt);
    var newLine := Separator(fmt);
    var child := if Empty(f.child) then "" else " {" + newLine + Build(f.child, n + 1, fmt) + newLine + spaces + "}";
    spaces + f.name + child
  }

  /**
   * The lines of a selection rendered at level `n`: a field without child fields is one line; a field with
   * them opens a block on its own line, the child's lines follow one level deeper, and `}` closes the block
   * on a line of its own at the field's level.
   */
  function Lines(s: Selection, n: nat): (r: seq<Line>)
    ensures r == [] <==> Empty(s)
    decreases s, 1
  {
    FieldsLines(s.fields, n)
  }

  function FieldsLines(fs: seq<Field>, n: nat): (r: seq<Line>)
    ensures r == [] <==> fs == []
    decreases fs, 0
  {
    if fs == [] then [] else FieldLines(fs[0], n) + FieldsLines(fs[1..], n)
  }

  function FieldLines(f: Field, n: nat): (r: seq<Line>)
    ensures |r| > 0
    decreases f, 2
  {
    if Empty(f.child) then [Line(n, f.name)]
    else [Line(n, f.name + " {")] + Lines(f.child, n + 1) + [Line(n, "}")]
  }

  /** In either layout a rendered selection is exactly the document of its lines. */
  lemma {:induction false} BuildLines(s: Selection, n: nat, fmt: Formatting)
    ensures Build(s, n, fmt) == Render(Lines(s, n), fmt)
    decreases s, 1
  {
    FieldBuildsLines(s.fields, n, fmt);
  }

  lemma {:induction false} FieldBuildsLines(fs: seq<Field>, n: nat, fmt: Formatting)
    ensures Join(Separator(fmt), FieldBuilds(fs, n, fmt)) == Render(FieldsLines(fs, n), fmt)
    decreases fs, 0
  {
    if fs != [] {
      var parts := FieldBuilds(fs, n, fmt);
      assert parts == [FieldBuild(fs[0], n, fmt)] + FieldBuilds(fs[1..], n, fmt);
      FieldBuildLines(fs[0], n, fmt);
      if |fs| == 1 {
        assert FieldsLines(fs, n) == FieldLines(fs[0], n);
      } else {
        FieldBuildsLines(fs[1..], n, fmt);
        RenderAppend(FieldLines(fs[0], n), FieldsLines(fs[1..], n), fmt);
      }
    }
  }

  lemma {:induction false} FieldBuildLines(f: Field, n: nat, fmt: Formatting)
    ensures FieldBuild(f, n, fmt) == Render(FieldLines(f, n), fmt)
    decreases f, 2
  {
    if !Empty(f.child) {
      var inner := Lines(f.child, n + 1);
      assert FieldLines(f, n) == [Line(n, f.name + " {")] + inner + [Line(n, "}")];
      assert FieldBuild(f, n, fmt) == Block(Indent(n, fmt), f.name, Separator(fmt), Build(f.child, n + 1, fmt));
      BuildLines(f.child, n + 1, fmt);
      RenderBlock(n, f.name, inner, fmt);
    }
  }

  /** No field name of the selection, at any depth, holds a line feed. */
  predicate OneLineNames(s: Selection)
    decreases s
  {
    forall i :: 0 <= i < |s.fields| ==> '\n' !in s.fields[i].name && OneLineNames(s.fields[i].child)
  }

  /** Compact, a selection whose field names hold no line feed is written on one line. */
  lemma {:induction false} CompactOneLine(s: Selection, n: nat)
    requires OneLineNames(s)
    ensures '\n' !in Build(s, n, Compact)
    decreases s, 1
  {
    FieldBuildsOneLine(s.fields, n);
    JoinOneLine(" ", FieldBuilds(s.fields, n, Compact));
  }

  lemma {:induction false} FieldBuildsOneLine(fs: seq<Field>, n: nat)
    requires forall i :: 0 <= i < |fs| ==> '\n' !in fs[i].name && OneLineNames(fs[i].child)
    ensures forall i :: 0 <= i < |fs| ==> '\n' !in FieldBuilds(fs, n, Compact)[i]
    decreases fs, 0
  {
    if fs != [] {
      FieldOneLine(fs[0], n);
      FieldBuildsOneLine(fs[1..], n);
      var parts := FieldBuilds(fs, n, Compact);
      assert parts == [FieldBuild(fs[0], n, Compact)] + FieldBuilds(fs[1..], n, Compact);
      assert forall i :: 1 <= i < |fs| ==> parts[i] == FieldBuilds(fs[1..], n, Compact)[i - 1];
    }
  }

  lemma {:induction false} FieldOneLine(f: Field, n: nat)
    requires '\n' !in f.name && OneLineNames(f.child)
    ensures '\n' !in FieldBuild(f, n, Compact)
    decreases f, 2
  {
    if !Empty(f.child) {
      CompactOneLine(f.child, n + 1);
    }
  }

  /** The layout-free reference rendering: names with layout removed, braces around every non-empty child selection. */
  function Skeleton(s: Selection): string
    decreases s, 1
  {
    FieldsSkeleton(s.fields)
  }

  function FieldsSkeleton(fs: seq<Field>): string
    decreases fs, 0
  {
    if fs == [] then "" else FieldSkeleton(fs[0]) + FieldsSkeleton(fs[1..])
  }

  function FieldSkeleton(f: Field): string
    decreases f, 2
  {
    Strip(f.name) + (if Empty(f.child) then "" else "{" + Skeleton(f.child) + "}")
  }

  /** Whatever the level and the layout, removing the layout from a rendered selection gives its skeleton. */
  lemma {:induction false} StripBuild(s: Selection, n: nat, fmt: Formatting)
    ensures Strip(Build(s, n, fmt)) == Skeleton(s)
    decreases s, 1
  {
    StripLayout(n, fmt);
    StripJoin(Separator(fmt), FieldBuilds(s.fields, n, fmt));
    StripFieldBuilds(s.fields, n, fmt);
  }

  lemma {:induction false} StripFieldBuilds(fs: seq<Field>, n: nat, fmt: Formatting)
    ensures StripAll(FieldBuilds(fs, n, fmt)) == FieldsSkeleton(fs)
    decreases fs, 0
  {
    if fs != [] {
      var parts := FieldBuilds(fs, n, fmt);
      assert parts[0] == FieldBuild(fs[0], n, fmt);
      assert parts[1..] == FieldBuilds(fs[1..], n, fmt);
      StripFieldBuild(fs[0], n, fmt);
      StripFieldBuilds(fs[1..], n, fmt);
    }
  }

  lemma {:induction false} StripFieldBuild(f: Field, n: nat, fmt: Formatting)
    ensures Strip(FieldBuild(f, n, fmt)) == FieldSkeleton(f)
    decreases f, 2
  {
    var spaces := Indent(n, fmt);
    StripLayout(n, fmt);
    StripConcat(spaces, f.name);
    var child := if Empty(f.child) then "" else " {" + Separator(fmt) + Build(f.child, n + 1, fmt) + Separator(fmt) + spaces + "}";
    assert FieldBuild(f, n, fmt) == spaces + f.name + child;
    StripConcat(spaces + f.name, child);
    if !Empty(f.child) {
      StripBuild(f.child, n + 1, fmt);
      StripBlock(Separator(fmt), Build(f.child, n + 1, fmt), spaces);
    }
  }

  /** The two layouts carry the same fields in the same nesting: they differ in spaces and line breaks only. */
  lemma LayoutOnly(s: Selection, n: nat)
    ensures Strip(Build(s, n, Indented)) == Strip(Build(s, n, Compact))
  {
    StripBuild(s, n, Indented);
    StripBuild(s, n, Compact);
  }
}
