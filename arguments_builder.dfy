/** `GraphQLArgumentsBuilder`: the variables and the named arguments of one query node. */
module ArgumentsBuilder {
  import opened Text
  import VariableBuilder

  /** One entry of the `_params` dictionary: an argument name and its raw value. */
  datatype Entry = Entry(key: string, value: string)

  /**
   * The builder's state: `_variables` in declaration order and `_params` in enumeration order.
   * The dictionary is an association list in which overwriting a key keeps its position.
   */
  datatype Arguments = Arguments(variables: seq<VariableBuilder.Variable>, params: seq<Entry>)

  /** The value stored under `key`, if any. */
  function Lookup(ps: seq<Entry>, key: string): Option<string>
  {
    if ps == [] then None
    else if ps[0].key == key then Some(ps[0].value)
    else Lookup(ps[1..], key)
  }

  /** How many entries carry `key`. */
  function Count(ps: seq<Entry>, key: string): nat
  {
    if ps == [] then 0 else (if ps[0].key == key then 1 else 0) + Count(ps[1..], key)
  }

  /** Dictionary keys are distinct. */
  predicate UniqueKeys(ps: seq<Entry>)
  {
    forall i, j :: 0 <= i < j < |ps| ==> ps[i].key != ps[j].key
  }

  /**
   * `_params[key] = value`: afterwards `key` maps to `value` and every other key to what it did before.
   * A new key goes at the end; an existing key keeps its place and every key keeps its position.
   */
  function SetParam(ps: seq<Entry>, key: string, value: string): (r: seq<Entry>)
    ensures Lookup(r, key) == Some(value)
    ensures forall k :: k != key ==> Lookup(r, k) == Lookup(ps, k)
    ensures Lookup(ps, key).None? ==> r == ps + [Entry(key, value)]
    ensures Lookup(ps, key).Some? ==> |r| == |ps| && forall i :: 0 <= i < |ps| ==> r[i].key == ps[i].key
  {
    if ps == [] then [Entry(key, value)]
    else if ps[0].key == key then [Entry(key, value)] + ps[1..]
    else [ps[0]] + SetParam(ps[1..], key, value)
  }

  lemma {:induction false} CountAbsent(ps: seq<Entry>, key: string)
    requires forall i :: 0 <= i < |ps| ==> ps[i].key != key
    ensures Count(ps, key) == 0
  {
    if ps != [] {
      assert forall i :: 0 <= i < |ps[1..]| ==> ps[1..][i] == ps[i + 1];
      CountAbsent(ps[1..], key);
    }
  }

  lemma {:induction false} NoneMeansAbsent(ps: seq<Entry>, key: string)
    requires Lookup(ps, key).None?
    ensures forall i :: 0 <= i < |ps| ==> ps[i].key != key
  {
    if ps != [] {
      NoneMeansAbsent(ps[1..], key);
      assert forall i :: 1 <= i < |ps| ==> ps[i] == ps[1..][i - 1];
    }
  }

  /** Counting looks at the keys only. */
  lemma {:induction false} CountSameKeys(ps: seq<Entry>, qs: seq<Entry>, key: string)
    requires |ps| == |qs| && forall i :: 0 <= i < |ps| ==> ps[i].key == qs[i].key
    ensures Count(ps, key) == Count(qs, key)
  {
    if ps != [] {
      assert forall i :: 0 <= i < |ps[1..]| ==> ps[1..][i] == ps[i + 1] && qs[1..][i] == qs[i + 1];
      CountSameKeys(ps[1..], qs[1..], key);
    }
  }

  lemma {:induction false} CountAppend(ps: seq<Entry>, e: Entry, key: string)
    ensures Count(ps + [e], key) == Count(ps, key) + (if e.key == key then 1 else 0)
  {
    if ps == [] {
      assert ps + [e] == [e];
    } else {
      assert (ps + [e])[1..] == ps[1..] + [e];
      CountAppend(ps[1..], e, key);
    }
  }

  /** With distinct keys, a key that is present occurs exactly once. */
  lemma {:induction false} CountPresent(ps: seq<Entry>, key: string)
    requires UniqueKeys(ps) && Lookup(ps, key).Some?
    ensures Count(ps, key) == 1
  {
    if ps[0].key == key {
      assert forall i :: 0 <= i < |ps[1..]| ==> ps[1..][i] == ps[i + 1];
      CountAbsent(ps[1..], key);
    } else {
      assert forall i :: 0 <= i < |ps[1..]| ==> ps[1..][i] == ps[i + 1];
      CountPresent(ps[1..], key);
    }
  }

  /** Setting a key keeps the keys distinct and leaves exactly one entry for it; other keys keep their counts. */
  lemma SetParamUnique(ps: seq<Entry>, key: string, value: string)
    requires UniqueKeys(ps)
    ensures UniqueKeys(SetParam(ps, key, value))
    ensures Count(SetParam(ps, key, value), key) == 1
    ensures forall k :: k != key ==> Count(SetParam(ps, key, value), k) == Count(ps, k)
  {
    var r := SetParam(ps, key, value);
    if Lookup(ps, key).None? {
      NoneMeansAbsent(ps, key);
      CountAbsent(ps, key);
      forall k ensures Count(r, k) == Count(ps, k) + (if k == key then 1 else 0) {
        CountAppend(ps, Entry(key, value), k);
      }
    } else {
      CountPresent(ps, key);
      forall k ensures Count(r, k) == Count(ps, k) {
        CountSameKeys(r, ps, k);
      }
    }
  }

  /** `Empty`: no variable declared and no argument set. */
  predicate Empty(a: Arguments)
  {
    |a.variables| == 0 && |a.params| == 0
  }

  /** Each variable's declaration, in declaration order. */
  function VariableParts(vs: seq<VariableBuilder.Variable>): (r: seq<string>)
    ensures |r| == |vs|
    ensures forall i :: 0 <= i < |vs| ==> r[i] == VariableBuilder.Build(vs[i])
  {
    seq(|vs|, i requires 0 <= i < |vs| => VariableBuilder.Build(vs[i]))
  }

  /** One argument as `key:value`, the value copied raw. */
  function EntryBuild(e: Entry): (s: string)
    ensures |s| == |e.key| + 1 + |e.value|
  {
    e.key + ":" + e.value
  }

  /** Each argument, in dictionary order. */
  function EntryParts(ps: seq<Entry>): (r: seq<string>)
    ensures |r| == |ps|
    ensures forall i :: 0 <= i < |ps| ==> r[i] == EntryBuild(ps[i])
  {
    seq(|ps|, i requires 0 <= i < |ps| => EntryBuild(ps[i]))
  }

  /** `Build()`: every variable, then every argument, all in one list separated by `", "`. */
  function Build(a: Arguments): (r: string)
    ensures |a.variables| == 1 && a.params == [] ==> r == VariableBuilder.Build(a.variables[0])
    ensures a.variables == [] && |a.params| == 1 ==> r == EntryBuild(a.params[0])
  {
    Join(", ", VariableParts(a.variables) + EntryParts(a.params))
  }

  /** The list is empty exactly when there is nothing in the set. */
  lemma BuildEmptyIff(a: Arguments)
    ensures Build(a) == "" <==> Empty(a)
  {
    var parts := VariableParts(a.variables) + EntryParts(a.params);
    if |a.variables| > 0 {
      assert parts[0] == VariableBuilder.Build(a.variables[0]);
    } else if |a.params| > 0 {
      assert parts[0] == EntryBuild(a.params[0]);
    }
  }

  /** When both kinds are present, all variables come first, then one `", "`, then all arguments. */
  lemma VariablesBeforeParams(a: Arguments)
    requires |a.variables| > 0 && |a.params| > 0
    ensures Build(a) == Join(", ", VariableParts(a.variables)) + ", " + Join(", ", EntryParts(a.params))
  {
    JoinAppend(", ", VariableParts(a.variables), EntryParts(a.params));
  }

  /**
   * Declaring one more variable puts its declaration after the earlier declarations and before every argument;
   * on a set with no arguments that is the end of the list, and otherwise it stands between the two groups.
   */
  lemma AppendVariable(vs: seq<VariableBuilder.Variable>, v: VariableBuilder.Variable, ps: seq<Entry>)
    ensures Build(Arguments(vs + [v], ps)) == Join(", ", VariableParts(vs) + [VariableBuilder.Build(v)] + EntryParts(ps))
    ensures |vs| > 0 && ps == [] ==> Build(Arguments(vs + [v], ps)) == Build(Arguments(vs, ps)) + ", " + VariableBuilder.Build(v)
    ensures |vs| > 0 && ps != [] ==>
              Build(Arguments(vs + [v], ps)) == Join(", ", VariableParts(vs)) + ", " + VariableBuilder.Build(v) + ", " + Join(", ", EntryParts(ps))
  {
    var before, one := VariableParts(vs), [VariableBuilder.Build(v)];
    assert VariableParts(vs + [v]) == before + one;
    if |vs| > 0 && ps == [] {
      assert before + one + [] == before + one;
      assert before + [] == before;
      JoinAppend(", ", before, one);
    } else if |vs| > 0 {
      assert before + one + EntryParts(ps) == before + (one + EntryParts(ps));
      JoinAppend(", ", before, one + EntryParts(ps));
      JoinAppend(", ", one, EntryParts(ps));
    }
  }

  /** Setting a new argument on a non-empty set adds `key:value` at the end of the list. */
  lemma AppendParam(a: Arguments, key: string, value: string)
    requires !Empty(a) && Lookup(a.params, key).None?
    ensures Build(a.(params := SetParam(a.params, key, value))) == Build(a) + ", " + key + ":" + value
  {
    var parts := VariableParts(a.variables) + EntryParts(a.params);
    assert EntryParts(a.params + [Entry(key, value)]) == EntryParts(a.params) + [EntryBuild(Entry(key, value))];
    assert VariableParts(a.variables) + EntryParts(a.params + [Entry(key, value)]) == parts + [key + ":" + value];
    JoinAppend(", ", parts, [key + ":" + value]);
  }

  /** Reads `key:value` back: the key runs up to the first `:`. */
  function ParseEntry(s: string): Option<Entry>
  {
    var colon := IndexOfAny(s, {':'});
    if colon == |s| then None else Some(Entry(s[..colon], s[colon + 1..]))
  }

  /** An argument whose key has no `:` round-trips, whatever its raw value holds. */
  lemma ParseEntryBuild(e: Entry)
    requires forall i :: 0 <= i < |e.key| ==> e.key[i] != ':'
    ensures ParseEntry(EntryBuild(e)) == Some(e)
  {
    var s := EntryBuild(e);
    assert s == e.key + (":" + e.value);
    IndexOfAnyAfter(e.key, ":" + e.value, {':'});
    assert s[..|e.key|] == e.key;
    assert s[|e.key| + 1..] == e.value;
  }
}
