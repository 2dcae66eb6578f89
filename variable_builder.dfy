/** `GraphQLVariableBuilder`: one variable declared by an operation, `$name:Type[!][ = default]`. */
module VariableBuilder {
  import opened Text

  /** The builder's four fields: `_name` and `_defaultValue` are fixed at construction, `_type` and `_required` change. */
  datatype Variable = Variable(name: string, defaultValue: string, typ: string, required: bool)

  /** The constructor: the given name and default, type `String`, not required. */
  function New(name: string, defaultValue: string): (v: Variable)
    ensures v.name == name && v.defaultValue == defaultValue
    ensures v.typ == "String" && !v.required
  {
    Variable(name, defaultValue, "String", false)
  }

  /** `Object(ofType)`: the type becomes `ofType`, or `Object` when `ofType` is empty or white space; the rest is kept. */
  function Object(v: Variable, ofType: string): (r: Variable)
    ensures r.typ == (if IsNullOrWhiteSpace(ofType) then "Object" else ofType)
    ensures r.(typ := v.typ) == v
  {
    v.(typ := if IsNullOrWhiteSpace(ofType) then "Object" else ofType)
  }

  /** `Required()`: marks the variable non-null and changes nothing else. */
  function Required(v: Variable): (r: Variable)
    ensures r.required
    ensures r.(required := v.required) == v
  {
    v.(required := true)
  }

  /** `Build()`: `$`, the name, `:`, the type, `!` when required, and ` = default` unless the default is empty or white space. */
  function Build(v: Variable): (s: string)
    ensures |s| > 0 && s[0] == '$'
  {
    "$" + v.name + ":" + v.typ + (if v.required then "!" else "")
      + (if IsNullOrWhiteSpace(v.defaultValue) then "" else " = " + v.defaultValue)
  }

  /** The five scalar setters `String()`, `Int()`, `Float()`, `Boolean()`, `ID()` pass their own name to `Object`, which keeps it. */
  lemma ScalarTypes(v: Variable)
    ensures Object(v, "String").typ == "String"
    ensures Object(v, "Int").typ == "Int"
    ensures Object(v, "Float").typ == "Float"
    ensures Object(v, "Boolean").typ == "Boolean"
    ensures Object(v, "ID").typ == "ID"
  {
    assert !IsWhiteSpace("String"[0]) && !IsWhiteSpace("Int"[0]) && !IsWhiteSpace("Float"[0]);
    assert !IsWhiteSpace("Boolean"[0]) && !IsWhiteSpace("ID"[0]);
  }

  /** Of two type settings, the later one decides; and setting the type and marking required commute. */
  lemma LastTypeWins(v: Variable, first: string, second: string)
    ensures Object(Object(v, first), second) == Object(v, second)
    ensures Object(Required(v), first) == Required(Object(v, first))
  {
  }

  /** Marking required twice is the same as once. */
  lemma RequiredIdempotent(v: Variable)
    ensures Required(Required(v)) == Required(v)
  {
  }

  /** A white-space default is left out exactly like an empty one. */
  lemma WhiteSpaceDefaultOmitted(v: Variable)
    requires IsNullOrWhiteSpace(v.defaultValue)
    ensures Build(v) == Build(v.(defaultValue := ""))
  {
  }

  /** The declarations `Parse` can read back: no `:` in the name, neither `!` nor a space in the type. */
  predicate Readable(v: Variable)
  {
    && (forall i :: 0 <= i < |v.name| ==> v.name[i] != ':')
    && (forall i :: 0 <= i < |v.typ| ==> v.typ[i] != '!' && v.typ[i] != ' ')
  }

  /** What a reader of the declaration sees: the default that `Build` shows (white space shows as none). */
  function Shown(v: Variable): (r: Variable)
    ensures r.name == v.name && r.typ == v.typ && r.required == v.required
    ensures IsNullOrWhiteSpace(v.defaultValue) ==> r.defaultValue == ""
    ensures !IsNullOrWhiteSpace(v.defaultValue) ==> r.defaultValue == v.defaultValue
  {
    if IsNullOrWhiteSpace(v.defaultValue) then v.(defaultValue := "") else v
  }

  /** Reads `$name:Type[!][ = default]` back into its parts; `None` for a string not of that shape. */
  function Parse(s: string): Option<Variable>
  {
    if |s| == 0 || s[0] != '$' then None else ParseName(s[1..])
  }

  /** The name runs up to the first `:`. */
  function ParseName(body: string): Option<Variable>
  {
    var colon := IndexOfAny(body, {':'});
    if colon == |body| then None else ParseType(body[..colon], body[colon + 1..])
  }

  /** The type runs up to the first `!` or space. */
  function ParseType(name: string, rest: string): Option<Variable>
  {
    var typEnd := IndexOfAny(rest, {'!', ' '});
    ParseSuffix(name, rest[..typEnd], rest[typEnd..])
  }

  /** What follows the type: an optional `!`, then nothing or ` = ` and the default. */
  function ParseSuffix(name: string, typ: string, tail: string): Option<Variable>
  {
    var required := |tail| > 0 && tail[0] == '!';
    var clause := if required then tail[1..] else tail;
    if clause == "" then Some(Variable(name, "", typ, required))
    else if |clause| > 3 && clause[..3] == " = " then Some(Variable(name, clause[3..], typ, required))
    else None
  }

  /** Every readable declaration round-trips: parsing what `Build` wrote gives back the name, type, required flag and shown default. */
  lemma ParseBuild(v: Variable)
    requires Readable(v)
    ensures Parse(Build(v)) == Some(Shown(v))
  {
    var bang := if v.required then "!" else "";
    var clause := if IsNullOrWhiteSpace(v.defaultValue) then "" else " = " + v.defaultValue;
    var rest := v.typ + (bang + clause);
    var body := v.name + (":" + rest);
    assert Build(v) == "$" + body;
    assert Build(v)[1..] == body;
    ParseNameStep(v.name, rest);
    ParseTypeStep(v.name, v.typ, bang + clause);
    ParseSuffixStep(v);
  }

  lemma ParseNameStep(name: string, rest: string)
    requires forall i :: 0 <= i < |name| ==> name[i] != ':'
    ensures ParseName(name + (":" + rest)) == ParseType(name, rest)
  {
    var body := name + (":" + rest);
    IndexOfAnyAfter(name, ":" + rest, {':'});
    assert body[..|name|] == name;
    assert body[|name| + 1..] == rest;
  }

  lemma ParseTypeStep(name: string, typ: string, tail: string)
    requires forall i :: 0 <= i < |typ| ==> typ[i] != '!' && typ[i] != ' '
    requires tail == [] || tail[0] == '!' || tail[0] == ' '
    ensures ParseType(name, typ + tail) == ParseSuffix(name, typ, tail)
  {
    IndexOfAnyAfter(typ, tail, {'!', ' '});
    assert (typ + tail)[..|typ|] == typ;
    assert (typ + tail)[|typ|..] == tail;
  }

  lemma ParseSuffixStep(v: Variable)
    ensures ParseSuffix(v.name, v.typ, (if v.required then "!" else "")
      + (if IsNullOrWhiteSpace(v.defaultValue) then "" else " = " + v.defaultValue)) == Some(Shown(v))
  {
    var clause := if IsNullOrWhiteSpace(v.defaultValue) then "" else " = " + v.defaultValue;
    if v.required {
      assert ("!" + clause)[1..] == clause;
    } else {
      assert "" + clause == clause;
    }
    if clause != "" {
      assert v.defaultValue != "";
      assert clause[..3] == " = " && clause[3..] == v.defaultValue;
    }
  }
}
