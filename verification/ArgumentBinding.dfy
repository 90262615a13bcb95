/** Binding a call's arguments to a plan's parameters (src/blueapi/client/client.py, Plan._build_args). */
module ArgumentBinding {
  import opened Basics

  /** A keyword argument, in the order the caller wrote them. */
  datatype Keyword<V> = Keyword(name: string, value: V)

  /** The parameter names of a plan in the order of its schema, and those that must be given. */
  datatype Schema = Schema(properties: seq<string>, required: seq<string>)

  datatype BindError =
    | TooManyArguments
    | UnexpectedArguments(names: set<string>)
    | MultipleValues(name: string)
    | MissingArguments(names: set<string>)

  type Binding<V> = Result<map<string, V>, BindError>

  predicate DistinctKeywords<V>(kwargs: seq<Keyword<V>>) {
    forall i, j | 0 <= i < j < |kwargs| :: kwargs[i].name != kwargs[j].name
  }

  function Unexpected<V>(schema: Schema, kwargs: seq<Keyword<V>>): (names: set<string>) {
    set i | 0 <= i < |kwargs| && kwargs[i].name !in schema.properties :: kwargs[i].name
  }

  /** The parameter takes its value from a position. */
  predicate Positional<V>(schema: Schema, args: seq<V>, name: string) {
    exists i :: 0 <= i < |args| && i < |schema.properties| && schema.properties[i] == name
  }

  predicate Given<V>(schema: Schema, args: seq<V>, kwargs: seq<Keyword<V>>, name: string) {
    Positional(schema, args, name) || exists i :: 0 <= i < |kwargs| && kwargs[i].name == name
  }

  function Missing<V>(schema: Schema, args: seq<V>, kwargs: seq<Keyword<V>>): (names: set<string>) {
    set i | 0 <= i < |schema.required| && !Given(schema, args, kwargs, schema.required[i]) :: schema.required[i]
  }

  /** Exactly these values: the positionals in schema order and the keywords, and nothing else. */
  predicate Binds<V(==)>(params: map<string, V>, schema: Schema, args: seq<V>, kwargs: seq<Keyword<V>>)
    requires |args| <= |schema.properties|
  {
    && (forall i | 0 <= i < |args| :: schema.properties[i] in params && params[schema.properties[i]] == args[i])
    && HoldsAll(params, kwargs)
    && (forall name | name in params :: Given(schema, args, kwargs, name))
  }

  /** The keyword is the first that names a parameter already bound by position. */
  predicate FirstRepeat<V>(schema: Schema, args: seq<V>, kwargs: seq<Keyword<V>>, i: nat) {
    && i < |kwargs| && Positional(schema, args, kwargs[i].name)
    && forall j | 0 <= j < i :: !Positional(schema, args, kwargs[j].name)
  }

  predicate NoRepeat<V>(schema: Schema, args: seq<V>, kwargs: seq<Keyword<V>>) {
    forall i | 0 <= i < |kwargs| :: !Positional(schema, args, kwargs[i].name)
  }

  /** Everything that a call needs in order to be bound. */
  predicate Acceptable<V>(schema: Schema, args: seq<V>, kwargs: seq<Keyword<V>>) {
    && |args| <= |schema.properties|
    && (forall i | 0 <= i < |kwargs| :: kwargs[i].name in schema.properties)
    && NoRepeat(schema, args, kwargs)
    && (forall i | 0 <= i < |schema.required| :: Given(schema, args, kwargs, schema.required[i]))
  }

  method BuildArgs<V(==)>(schema: Schema, args: seq<V>, kwargs: seq<Keyword<V>>) returns (r: Binding<V>)
    requires Distinct(schema.properties) && DistinctKeywords(kwargs)
    ensures r.Ok? <==> Acceptable(schema, args, kwargs)
    ensures r.Ok? ==> Binds(r.value, schema, args, kwargs)
    ensures r == Err(TooManyArguments) <==> |args| > |schema.properties|
    ensures r.Err? && r.error.UnexpectedArguments? <==>
              |args| <= |schema.properties| && Unexpected(schema, kwargs) != {}
    ensures r.Err? && r.error.UnexpectedArguments? ==> r.error.names == Unexpected(schema, kwargs)
    ensures r.Err? && r.error.MultipleValues? ==>
              exists i: nat :: FirstRepeat(schema, args, kwargs, i) && r.error.name == kwargs[i].name
    ensures r.Err? && r.error.MissingArguments? ==>
              NoRepeat(schema, args, kwargs) && r.error.names == Missing(schema, args, kwargs) && r.error.names != {}
  {
    if |args| > |schema.properties| {
      return Err(TooManyArguments);
    }
    var extra := Unexpected(schema, kwargs);
    if extra != {} {
      return Err(UnexpectedArguments(extra));
    }
    forall i | 0 <= i < |kwargs| ensures kwargs[i].name in schema.properties {
      assert kwargs[i].name !in extra;
    }
    var params := BindPositions(schema, args);
    var added := BindKeywords(params, schema, args, kwargs);
    if added.Err? {
      return added;
    }
    params := added.value;
    var missing := set i | 0 <= i < |schema.required| && schema.required[i] !in params :: schema.required[i];
    BoundIsGiven(params, schema, args, kwargs);
    if missing != {} {
      return Err(MissingArguments(missing));
    }
    assert forall i | 0 <= i < |schema.required| :: schema.required[i] !in missing;
    return Ok(params);
  }

  method BindPositions<V(==)>(schema: Schema, args: seq<V>) returns (params: map<string, V>)
    requires Distinct(schema.properties) && |args| <= |schema.properties|
    ensures Binds(params, schema, args, [])
  {
    params := map[];
    for i := 0 to |args|
      invariant forall j | 0 <= j < i :: schema.properties[j] in params && params[schema.properties[j]] == args[j]
      invariant forall name | name in params :: exists j :: 0 <= j < i && schema.properties[j] == name
    {
      params := params[schema.properties[i] := args[i]];
    }
  }

  method BindKeywords<V(==)>(bound: map<string, V>, schema: Schema, args: seq<V>, kwargs: seq<Keyword<V>>)
    returns (r: Binding<V>)
    requires |args| <= |schema.properties| && DistinctKeywords(kwargs) && Binds(bound, schema, args, [])
    ensures r.Ok? <==> NoRepeat(schema, args, kwargs)
    ensures r.Ok? ==> Binds(r.value, schema, args, kwargs)
    ensures r.Err? ==> r.error.MultipleValues?
    ensures r.Err? ==>
              exists i: nat :: FirstRepeat(schema, args, kwargs, i) && r.error.name == kwargs[i].name
  {
    var params := bound;
    for i := 0 to |kwargs|
      invariant Binds(params, schema, args, kwargs[..i])
      invariant NoRepeat(schema, args, kwargs[..i])
    {
      BoundIsGiven(params, schema, args, kwargs[..i]);
      if kwargs[i].name in params {
        GivenTwice(schema, args, kwargs, i);
        return Err(MultipleValues(kwargs[i].name));
      }
      KeywordAdds(params, schema, args, kwargs, i);
      params := params[kwargs[i].name := kwargs[i].value];
    }
    assert kwargs[..|kwargs|] == kwargs;
    return Ok(params);
  }

  lemma BoundIsGiven<V>(params: map<string, V>, schema: Schema, args: seq<V>, kwargs: seq<Keyword<V>>)
    requires |args| <= |schema.properties| && Binds(params, schema, args, kwargs)
    ensures forall name :: name in params <==> Given(schema, args, kwargs, name)
  {
  }

  lemma KeywordAdds<V>(params: map<string, V>, schema: Schema, args: seq<V>, kwargs: seq<Keyword<V>>, i: nat)
    requires |args| <= |schema.properties| && i < |kwargs|
    requires Binds(params, schema, args, kwargs[..i]) && NoRepeat(schema, args, kwargs[..i])
    requires kwargs[i].name !in params
    ensures Binds(params[kwargs[i].name := kwargs[i].value], schema, args, kwargs[..i + 1])
    ensures NoRepeat(schema, args, kwargs[..i + 1])
  {
    var more := kwargs[..i + 1];
    assert more[i] == kwargs[i];
    assert forall j | 0 <= j < i :: more[j] == kwargs[..i][j];
    forall name | name in params ensures Given(schema, args, more, name) {
      if !Positional(schema, args, name) {
        var j :| 0 <= j < i && kwargs[..i][j].name == name;
        assert more[j].name == name;
      }
    }
  }

  lemma GivenTwice<V>(schema: Schema, args: seq<V>, kwargs: seq<Keyword<V>>, i: nat)
    requires i < |kwargs| && DistinctKeywords(kwargs)
    requires Given(schema, args, kwargs[..i], kwargs[i].name) && NoRepeat(schema, args, kwargs[..i])
    ensures FirstRepeat(schema, args, kwargs, i)
  {
    forall j | 0 <= j < i ensures !Positional(schema, args, kwargs[j].name) {
      assert kwargs[..i][j] == kwargs[j];
    }
  }

  /** At most one binding fits a call. */
  lemma BindingIsUnique<V>(a: map<string, V>, b: map<string, V>, schema: Schema, args: seq<V>, kwargs: seq<Keyword<V>>)
    requires |args| <= |schema.properties|
    requires Binds(a, schema, args, kwargs) && Binds(b, schema, args, kwargs)
    ensures a == b
  {
  }

  function AsKeywords<V>(schema: Schema, args: seq<V>, kwargs: seq<Keyword<V>>): (all: seq<Keyword<V>>)
    requires |args| <= |schema.properties|
  {
    seq(|args|, i requires 0 <= i < |args| => Keyword(schema.properties[i], args[i])) + kwargs
  }

  lemma AsKeywordsGiven<V>(schema: Schema, args: seq<V>, kwargs: seq<Keyword<V>>, name: string)
    requires |args| <= |schema.properties|
    ensures Given(schema, args, kwargs, name) <==> Given(schema, [], AsKeywords(schema, args, kwargs), name)
  {
    var all := AsKeywords(schema, args, kwargs);
    if i :| 0 <= i < |args| && schema.properties[i] == name {
      assert all[i].name == name;
    }
    if i :| 0 <= i < |kwargs| && kwargs[i].name == name {
      assert all[|args| + i].name == name;
    }
    if i :| 0 <= i < |all| && all[i].name == name {
      if i >= |args| {
        assert kwargs[i - |args|].name == name;
      }
    }
  }

  /** Passing an argument by position or by name is the same: equally acceptable, and bound to the same value. */
  lemma PositionIsName<V>(params: map<string, V>, schema: Schema, args: seq<V>, kwargs: seq<Keyword<V>>)
    requires |args| <= |schema.properties| && Distinct(schema.properties)
    ensures var all := AsKeywords(schema, args, kwargs);
            Binds(params, schema, args, kwargs) <==> Binds(params, schema, [], all)
    ensures var all := AsKeywords(schema, args, kwargs);
            Acceptable(schema, args, kwargs) && DistinctKeywords(kwargs) <==>
            Acceptable(schema, [], all) && DistinctKeywords(all)
  {
    BindsAsKeywords(params, schema, args, kwargs);
    DistinctAsKeywords(schema, args, kwargs);
    KnownAsKeywords(schema, args, kwargs);
    forall i | 0 <= i < |schema.required|
      ensures Given(schema, args, kwargs, schema.required[i])
              <==> Given(schema, [], AsKeywords(schema, args, kwargs), schema.required[i])
    {
      AsKeywordsGiven(schema, args, kwargs, schema.required[i]);
    }
  }

  lemma KnownAsKeywords<V>(schema: Schema, args: seq<V>, kwargs: seq<Keyword<V>>)
    requires |args| <= |schema.properties|
    ensures var all := AsKeywords(schema, args, kwargs);
            (forall i | 0 <= i < |all| :: all[i].name in schema.properties)
            <==> forall i | 0 <= i < |kwargs| :: kwargs[i].name in schema.properties
  {
    var all := AsKeywords(schema, args, kwargs);
    assert forall i | 0 <= i < |kwargs| :: all[|args| + i] == kwargs[i];
    assert forall i | |args| <= i < |all| :: all[i] == kwargs[i - |args|];
    assert forall i | 0 <= i < |args| :: all[i].name == schema.properties[i];
  }

  lemma BindsAsKeywords<V>(params: map<string, V>, schema: Schema, args: seq<V>, kwargs: seq<Keyword<V>>)
    requires |args| <= |schema.properties|
    ensures Binds(params, schema, args, kwargs) <==> Binds(params, schema, [], AsKeywords(schema, args, kwargs))
  {
    var all := AsKeywords(schema, args, kwargs);
    forall name ensures Given(schema, args, kwargs, name) <==> Given(schema, [], all, name) {
      AsKeywordsGiven(schema, args, kwargs, name);
    }
    HoldsAsKeywords(params, schema, args, kwargs);
  }

  /** The map gives every keyword its value. */
  predicate HoldsAll<V(==)>(params: map<string, V>, kwargs: seq<Keyword<V>>) {
    forall i | 0 <= i < |kwargs| :: kwargs[i].name in params && params[kwargs[i].name] == kwargs[i].value
  }

  lemma HoldsAsKeywords<V>(params: map<string, V>, schema: Schema, args: seq<V>, kwargs: seq<Keyword<V>>)
    requires |args| <= |schema.properties|
    ensures HoldsAll(params, AsKeywords(schema, args, kwargs)) <==>
            && HoldsAll(params, kwargs)
            && forall i | 0 <= i < |args| :: schema.properties[i] in params && params[schema.properties[i]] == args[i]
  {
    var all := AsKeywords(schema, args, kwargs);
    assert forall i | 0 <= i < |args| :: all[i] == Keyword(schema.properties[i], args[i]);
    assert forall i | 0 <= i < |kwargs| :: all[|args| + i] == kwargs[i];
    assert forall i | |args| <= i < |all| :: all[i] == kwargs[i - |args|];
  }

  lemma DistinctAsKeywords<V>(schema: Schema, args: seq<V>, kwargs: seq<Keyword<V>>)
    requires |args| <= |schema.properties| && Distinct(schema.properties)
    ensures DistinctKeywords(AsKeywords(schema, args, kwargs)) <==>
            DistinctKeywords(kwargs) && NoRepeat(schema, args, kwargs)
  {
    var all := AsKeywords(schema, args, kwargs);
    assert forall i | 0 <= i < |kwargs| :: all[|args| + i] == kwargs[i];
    assert forall i | 0 <= i < |args| :: all[i].name == schema.properties[i];
  }

  /** A call that is bound at all comes to the same parameters when its positional arguments are passed by name. */
  method BindEitherWay<V(==)>(schema: Schema, args: seq<V>, kwargs: seq<Keyword<V>>)
    returns (byPosition: Binding<V>, byName: Binding<V>)
    requires Distinct(schema.properties) && DistinctKeywords(kwargs) && Acceptable(schema, args, kwargs)
    ensures byPosition.Ok? && byName == byPosition
  {
    byPosition := BuildArgs(schema, args, kwargs);
    PositionIsName(byPosition.value, schema, args, kwargs);
    byName := BuildArgs(schema, [], AsKeywords(schema, args, kwargs));
    PositionIsName(byName.value, schema, args, kwargs);
    BindingIsUnique(byPosition.value, byName.value, schema, args, kwargs);
  }
}
