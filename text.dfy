/** Strings, joining and layout: the pieces of the .NET string API the builders use. */
module Text {

  /** A value that may be absent: a missing dictionary entry or an unreadable string. */
  datatype Option<T> = None | Some(value: T)

  /** `Environment.NewLine`, fixed to a line feed. */
  const NewLine: string := "\n"

  /** The two layouts of `GraphQLFormatting`: `Compact` is `None` (one line), `Indented` is human-readable. */
  datatype Formatting = Compact | Indented

  /** `"".PadLeft(n)`: n space characters. */
  function Spaces(n: nat): (s: string)
    ensures |s| == n
  {
    if n == 0 then "" else Spaces(n - 1) + " "
  }

  /** Every character of the padding is a space. */
  lemma {:induction false} AllSpaces(n: nat)
    ensures forall i :: 0 <= i < |Spaces(n)| ==> Spaces(n)[i] == ' '
  {
    if n > 0 {
      AllSpaces(n - 1);
      assert forall i :: 0 <= i < n - 1 ==> Spaces(n)[i] == Spaces(n - 1)[i];
    }
  }

  /** The separator every builder puts between neighbouring parts: a space, or a line break when indented. */
  function Separator(fmt: Formatting): (s: string)
    ensures s == " " || s == NewLine
    ensures fmt.Compact? <==> s == " "
  {
    if fmt.Indented? then NewLine else " "
  }

  /** The prefix at nesting `n`: four spaces per level when indented, nothing when compact. */
  function Indent(n: nat, fmt: Formatting): (s: string)
    ensures fmt.Compact? ==> s == ""
    ensures fmt.Indented? ==> s == Spaces(n * 4)
  {
    if fmt.Indented? then Spaces(n * 4) else ""
  }

  /** `string.Join(sep, parts)`: the parts in order, `sep` between each two neighbours. */
  function Join(sep: string, parts: seq<string>): (r: string)
    ensures |parts| == 0 ==> r == ""
    ensures |parts| == 1 ==> r == parts[0]
  {
    if |parts| == 0 then ""
    else if |parts| == 1 then parts[0]
    else parts[0] + sep + Join(sep, parts[1..])
  }

  /** Joining two non-empty lists puts exactly one separator between the last of the first and the first of the second. */
  lemma {:induction false} JoinAppend(sep: string, xs: seq<string>, ys: seq<string>)
    requires |xs| > 0 && |ys| > 0
    ensures Join(sep, xs + ys) == Join(sep, xs) + sep + Join(sep, ys)
  {
    if |xs| == 1 {
      assert (xs + ys)[1..] == ys;
    } else {
      assert (xs + ys)[1..] == xs[1..] + ys;
      JoinAppend(sep, xs[1..], ys);
    }
  }

  /** Joining line-feed-free parts with a line-feed-free separator gives a string with no line feed. */
  lemma {:induction false} JoinOneLine(sep: string, parts: seq<string>)
    requires '\n' !in sep
    requires forall i :: 0 <= i < |parts| ==> '\n' !in parts[i]
    ensures '\n' !in Join(sep, parts)
  {
    if |parts| > 1 {
      JoinOneLine(sep, parts[1..]);
    }
  }

  /** Joins of two and three parts, written out. */
  lemma Join2(sep: string, a: string, b: string)
    ensures Join(sep, [a, b]) == a + sep + b
  {
    assert [a, b][1..] == [b];
  }

  lemma Join3(sep: string, a: string, b: string, c: string)
    ensures Join(sep, [a, b, c]) == a + sep + b + sep + c
  {
    assert [a, b, c][1..] == [b, c];
    Join2(sep, b, c);
  }

  /** One line of a rendered document: its indentation level and the text after the indentation. */
  datatype Line = Line(level: nat, text: string)

  /** A line as written out: the level's prefix, then the text. */
  function RenderLine(l: Line, fmt: Formatting): (r: string)
    ensures fmt.Compact? ==> r == l.text
  {
    Indent(l.level, fmt) + l.text
  }

  /** A document given by its lines: every line written out, one separator between neighbours. */
  function Render(ls: seq<Line>, fmt: Formatting): (r: string)
    ensures |ls| == 0 ==> r == ""
    ensures |ls| == 1 ==> r == RenderLine(ls[0], fmt)
  {
    if |ls| == 0 then ""
    else if |ls| == 1 then RenderLine(ls[0], fmt)
    else RenderLine(ls[0], fmt) + Separator(fmt) + Render(ls[1..], fmt)
  }

  /** Two documents written one after the other are separated by exactly one separator. */
  lemma {:induction false} RenderAppend(xs: seq<Line>, ys: seq<Line>, fmt: Formatting)
    requires |xs| > 0 && |ys| > 0
    ensures Render(xs + ys, fmt) == Render(xs, fmt) + Separator(fmt) + Render(ys, fmt)
  {
    var both := xs + ys;
    assert both[0] == xs[0] && |both| > 1;
    if |xs| == 1 {
      assert both[1..] == ys;
    } else {
      assert both[1..] == xs[1..] + ys;
      RenderAppend(xs[1..], ys, fmt);
      RenderTail(xs, fmt);
    }
  }

  /** A document of two or more lines is its first line, a separator, and the document of the rest. */
  lemma RenderTail(ls: seq<Line>, fmt: Formatting)
    requires |ls| > 1
    ensures Render(ls, fmt) == RenderLine(ls[0], fmt) + Separator(fmt) + Render(ls[1..], fmt)
  {
  }

  /** The regrouping of a block's pieces that `RenderBlock` needs, kept apart so that it is proved over plain strings. */
  lemma Regroup(spaces: string, name: string, sep: string, body: string)
    ensures spaces + (name + " {") + sep + body + sep + (spaces + "}")
         == spaces + name + (" {" + sep + body + sep + spaces + "}")
  {
  }

  /** A block of lines: a line that opens it after `head`, the non-empty inside, and a closing `}` line at the same level. */
  lemma RenderBlock(n: nat, head: string, inner: seq<Line>, fmt: Formatting)
    requires |inner| > 0
    ensures Render([Line(n, head + " {")] + inner + [Line(n, "}")], fmt) == Block(Indent(n, fmt), head, Separator(fmt), Render(inner, fmt))
  {
    var first, last := [Line(n, head + " {")], [Line(n, "}")];
    RenderAppend(first, inner, fmt);
    RenderAppend(first + inner, last, fmt);
    Regroup(Indent(n, fmt), head, Separator(fmt), Render(inner, fmt));
  }

  /** The texts of the lines, without their levels. */
  function Texts(ls: seq<Line>): (r: seq<string>)
    ensures |r| == |ls|
  {
    if ls == [] then [] else [ls[0].text] + Texts(ls[1..])
  }

  /** Compact, the levels vanish: the document is the texts joined by single spaces. */
  lemma {:induction false} RenderCompact(ls: seq<Line>)
    ensures Render(ls, Compact) == Join(" ", Texts(ls))
  {
    if |ls| > 1 {
      RenderCompact(ls[1..]);
      assert ([ls[0].text] + Texts(ls[1..]))[1..] == Texts(ls[1..]);
    }
  }

  /** Each line preceded by four spaces per level. */
  function IndentedTexts(ls: seq<Line>): (r: seq<string>)
    ensures |r| == |ls|
  {
    if ls == [] then [] else [Spaces(4 * ls[0].level) + ls[0].text] + IndentedTexts(ls[1..])
  }

  /** Indented, every line is four spaces per level followed by its text, and lines are separated by line feeds. */
  lemma {:induction false} RenderIndented(ls: seq<Line>)
    ensures Render(ls, Indented) == Join(NewLine, IndentedTexts(ls))
  {
    if |ls| > 1 {
      RenderIndented(ls[1..]);
      assert ([Spaces(4 * ls[0].level) + ls[0].text] + IndentedTexts(ls[1..]))[1..] == IndentedTexts(ls[1..]);
    }
  }

  /** `char.IsWhiteSpace`: the Unicode space separators, line and paragraph separators, and U+0009..U+000D, U+0085, U+00A0. */
  predicate IsWhiteSpace(c: char)
  {
    || c == ' '
    || ('\t' <= c <= '\r')
    || c == '\U{85}'
    || c == '\U{A0}'
    || c == '\U{1680}'
    || ('\U{2000}' <= c <= '\U{200A}')
    || c == '\U{2028}'
    || c == '\U{2029}'
    || c == '\U{202F}'
    || c == '\U{205F}'
    || c == '\U{3000}'
  }

  /** `string.IsNullOrWhiteSpace` on a non-null string: empty, or nothing but white space. */
  predicate IsNullOrWhiteSpace(s: string)
  {
    forall i :: 0 <= i < |s| ==> IsWhiteSpace(s[i])
  }

  /** The characters the two layouts differ in. */
  predicate IsLayout(c: char)
  {
    c == ' ' || c == '\n'
  }

  /** `s` with every space and line feed removed. */
  function Strip(s: string): (r: string)
    ensures |r| <= |s|
  {
    if s == [] then []
    else if IsLayout(s[0]) then Strip(s[1..])
    else [s[0]] + Strip(s[1..])
  }

  /** Removing layout commutes with concatenation. */
  lemma {:induction false} StripConcat(a: string, b: string)
    ensures Strip(a + b) == Strip(a) + Strip(b)
  {
    if a != [] {
      assert (a + b)[0] == a[0];
      assert (a + b)[1..] == a[1..] + b;
      StripConcat(a[1..], b);
    } else {
      assert a + b == b;
    }
  }

  /** Removing layout from two parts with a layout separator between them leaves the two stripped parts. */
  lemma StripAround(a: string, sep: string, b: string)
    requires Strip(sep) == ""
    ensures Strip(a + sep + b) == Strip(a) + Strip(b)
  {
    StripConcat(a + sep, b);
    StripConcat(a, sep);
    assert Strip(a) + "" == Strip(a);
  }

  /** Layout strings, including every indentation prefix and separator, strip to nothing. */
  lemma {:induction false} StripSpaces(n: nat)
    ensures Strip(Spaces(n)) == ""
  {
    if n > 0 {
      StripSpaces(n - 1);
      StripConcat(Spaces(n - 1), " ");
    }
  }

  lemma StripLayout(n: nat, fmt: Formatting)
    ensures Strip(Indent(n, fmt)) == ""
    ensures Strip(Separator(fmt)) == ""
  {
    StripSpaces(n * 4);
  }

  /** The parts with their layout removed, run together. */
  function StripAll(parts: seq<string>): (r: string)
  {
    if parts == [] then "" else Strip(parts[0]) + StripAll(parts[1..])
  }

  /** Stripping a list that starts with `x` strips `x` first. */
  lemma StripAllCons(x: string, rest: seq<string>)
    ensures StripAll([x] + rest) == Strip(x) + StripAll(rest)
  {
    assert ([x] + rest)[1..] == rest;
  }

  /** When the separator is pure layout, removing layout from a joined list leaves the stripped parts run together. */
  lemma {:induction false} StripJoin(sep: string, parts: seq<string>)
    requires Strip(sep) == ""
    ensures Strip(Join(sep, parts)) == StripAll(parts)
  {
    if |parts| == 1 {
      assert parts[1..] == [];
    } else if |parts| > 1 {
      StripConcat(parts[0] + sep, Join(sep, parts[1..]));
      StripConcat(parts[0], sep);
      StripJoin(sep, parts[1..]);
    }
  }

  /** A block ` {` sep inner sep post `}` whose separator and closing prefix are layout strips to `{` inner `}`. */
  lemma StripBlock(sep: string, inner: string, post: string)
    requires Strip(sep) == "" && Strip(post) == ""
    ensures Strip(" {" + sep + inner + sep + post + "}") == "{" + Strip(inner) + "}"
  {
    StripConcat(" {" + sep + inner + sep + post, "}");
    StripConcat(" {" + sep + inner + sep, post);
    StripConcat(" {" + sep + inner, sep);
    StripConcat(" {" + sep, inner);
    StripConcat(" {", sep);
    assert Strip(" {") == "{" by {
      assert " {"[1..] == "{";
      assert "{"[1..] == "";
    }
    assert Strip("}") == "}" by {
      assert "}"[1..] == "";
    }
  }

  /** A rendered node: the prefix and the head, then ` {`, the separator, the inside, the separator, the prefix and `}`. */
  function Block(prefix: string, head: string, sep: string, inner: string): (r: string)
  {
    prefix + head + (" {" + sep + inner + sep + prefix + "}")
  }

  /** Compact, a block is the head, ` { `, the inside and ` }`. */
  lemma CompactBlock(n: nat, head: string, inner: string)
    ensures Block(Indent(n, Compact), head, Separator(Compact), inner) == head + " { " + inner + " }"
  {
  }

  /** A block whose prefix and separator are layout strips to the stripped head and the braced inside. */
  lemma StripNode(prefix: string, head: string, sep: string, inner: string)
    requires Strip(prefix) == "" && Strip(sep) == ""
    ensures Strip(Block(prefix, head, sep, inner)) == Strip(head) + "{" + Strip(inner) + "}"
  {
    StripConcat(prefix + head, " {" + sep + inner + sep + prefix + "}");
    StripConcat(prefix, head);
    StripBlock(sep, inner, prefix);
  }

  /** Position of the first character of `s` that is in `stops`, or `|s|` when there is none. */
  function IndexOfAny(s: string, stops: set<char>): (k: nat)
    ensures k <= |s|
    ensures forall i :: 0 <= i < k ==> s[i] !in stops
    ensures k < |s| ==> s[k] in stops
  {
    if s == [] then 0 else if s[0] in stops then 0 else 1 + IndexOfAny(s[1..], stops)
  }

  /** When `a` has no stop character and `b` is empty or starts with one, the first stop is right after `a`. */
  lemma IndexOfAnyAfter(a: string, b: string, stops: set<char>)
    requires forall i :: 0 <= i < |a| ==> a[i] !in stops
    requires b == [] || b[0] in stops
    ensures IndexOfAny(a + b, stops) == |a|
  {
    var s := a + b;
    assert forall i :: 0 <= i < |a| ==> s[i] == a[i];
    if b != [] {
      assert s[|a|] == b[0];
    }
  }
}
