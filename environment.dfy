/** What the two configuration resolvers share: reading a named variable from the
    process environment (given here as a map), and the "all missing names at once"
    policy with its error value. */
module Environment {
  import opened Text

  /** `os.Getenv`: an unset variable reads as the empty string. */
  function Getenv(env: map<string, string>, name: string): (v: string)
    ensures name in env ==> v == env[name]
    ensures name !in env ==> v == ""
  {
    if name in env then env[name] else ""
  }

  /** The value of `name` as the resolvers see it: `strings.TrimSpace(os.Getenv(name))`. */
  function Setting(env: map<string, string>, name: string): (v: string)
    ensures IsTrimmed(v)
  {
    TrimSpace(Getenv(env, name))
  }

  /** A variable reads as blank exactly when it is unset or all white space. */
  lemma BlankSetting(env: map<string, string>, name: string)
    ensures Setting(env, name) == "" <==> name !in env || AllSpace(env[name])
  {
    TrimSpaceEmpty(Getenv(env, name));
  }

  /** A configuration field the resolver requires: the variable it is read from
      and the (trimmed) value it received. */
  datatype Field = Field(name: string, value: string)

  /** The variable names of `fields`, in order. */
  function Names(fields: seq<Field>): (names: seq<string>)
    ensures |names| == |fields|
    ensures forall k :: 0 <= k < |fields| ==> names[k] == fields[k].name
  {
    if fields == [] then [] else Names(fields[..|fields| - 1]) + [fields[|fields| - 1].name]
  }

  /** `a` is `b` with some elements left out and the rest in their original order. */
  ghost predicate Embeds(a: seq<string>, b: seq<string>)
    decreases |b|
  {
    || a == []
    || (&& b != []
        && (|| (a[|a| - 1] == b[|b| - 1] && Embeds(a[..|a| - 1], b[..|b| - 1]))
            || Embeds(a, b[..|b| - 1])))
  }

  /** What one check contributes: the field's name when its value is blank. */
  function Blank(f: Field): (names: seq<string>)
    ensures names == [] || names == [f.name]
  {
    if f.value == "" then [f.name] else []
  }

  /** The `missing` list the resolvers accumulate: one check after another, each
      appending the name of a blank field. */
  function MissingNames(fields: seq<Field>): (missing: seq<string>)
    ensures |missing| <= |fields|
  {
    if fields == [] then [] else MissingNames(fields[..|fields| - 1]) + Blank(fields[|fields| - 1])
  }

  /** Exactly the names of blank fields are reported. */
  lemma {:induction false} MissingNamesExact(fields: seq<Field>)
    ensures forall n :: n in MissingNames(fields) <==> Field(n, "") in fields
  {
    if fields != [] {
      var init := fields[..|fields| - 1];
      MissingNamesExact(init);
      assert fields == init + [fields[|fields| - 1]];
      assert forall f :: f in fields <==> f in init || f == fields[|fields| - 1];
    }
  }

  /** Every field holds the setting of the variable it is named after. */
  predicate ReadFrom(env: map<string, string>, fields: seq<Field>) {
    forall k :: 0 <= k < |fields| ==> fields[k].value == Setting(env, fields[k].name)
  }

  /** For fields read from the environment, a checked variable is reported
      exactly when it is unset or all white space. */
  lemma MissingFromEnvironment(env: map<string, string>, fields: seq<Field>, name: string)
    requires ReadFrom(env, fields)
    ensures name in MissingNames(fields) <==> name in Names(fields) && (name !in env || AllSpace(env[name]))
  {
    MissingNamesExact(fields);
    BlankSetting(env, name);
    var names := Names(fields);
    if name in MissingNames(fields) {
      var k :| 0 <= k < |fields| && fields[k] == Field(name, "");
      assert names[k] == name;
    }
    if name in names && (name !in env || AllSpace(env[name])) {
      var k :| 0 <= k < |names| && names[k] == name;
      assert fields[k] == Field(name, "");
    }
  }

  /** The blank names are reported in the order they are checked. */
  lemma {:induction false} MissingNamesInOrder(fields: seq<Field>)
    ensures Embeds(MissingNames(fields), Names(fields))
  {
    if fields != [] {
      var init := fields[..|fields| - 1];
      MissingNamesInOrder(init);
      var before := MissingNames(init);
      var names := Names(fields);
      assert names[..|names| - 1] == Names(init);
      if fields[|fields| - 1].value == "" {
        var a := before + [fields[|fields| - 1].name];
        assert a[..|a| - 1] == before && a[|a| - 1] == names[|names| - 1];
        assert MissingNames(fields) == a;
      } else {
        assert MissingNames(fields) == before;
      }
    }
  }

  /** Nothing is reported exactly when every required field is set. */
  lemma {:induction false} NoneMissing(fields: seq<Field>)
    ensures MissingNames(fields) == [] <==> forall k :: 0 <= k < |fields| ==> fields[k].value != ""
  {
    if fields != [] {
      var init := fields[..|fields| - 1];
      NoneMissing(init);
      assert forall k :: 0 <= k < |init| ==> init[k] == fields[k];
    }
  }

  /** Four checks in a row report the blank names among them, in order. */
  lemma MissingNamesOfFour(f0: Field, f1: Field, f2: Field, f3: Field)
    ensures MissingNames([f0, f1, f2, f3]) == Blank(f0) + Blank(f1) + Blank(f2) + Blank(f3)
  {
    assert [f0][..0] == [];
    assert [f0, f1][..1] == [f0];
    assert [f0, f1, f2][..2] == [f0, f1];
    assert [f0, f1, f2, f3][..3] == [f0, f1, f2];
    assert MissingNames([f0]) == Blank(f0);
    assert MissingNames([f0, f1]) == Blank(f0) + Blank(f1);
    assert MissingNames([f0, f1, f2]) == Blank(f0) + Blank(f1) + Blank(f2);
  }

  /** Five checks in a row report the blank names among them, in order. */
  lemma MissingNamesOfFive(f0: Field, f1: Field, f2: Field, f3: Field, f4: Field)
    ensures MissingNames([f0, f1, f2, f3, f4]) == Blank(f0) + Blank(f1) + Blank(f2) + Blank(f3) + Blank(f4)
  {
    assert [f0, f1, f2, f3, f4][..4] == [f0, f1, f2, f3];
    MissingNamesOfFour(f0, f1, f2, f3);
  }

  /** A resolver's failure. */
  datatype ConfigError =
    | MissingConfiguration(component: string, names: seq<string>)
    | InvalidEndpoint(variable: string, cause: string)
  {
    /** The text of the error as `fmt.Errorf` formats it. */
    function Text(): (t: string)
      ensures MissingConfiguration? ==>
        HasPrefix(t, "missing " + component + " configuration: ") && HasSuffix(t, Join(names, ", "))
      ensures MissingConfiguration? ==> |t| == |"missing " + component + " configuration: "| + |Join(names, ", ")|
      ensures InvalidEndpoint? ==> HasPrefix(t, "invalid " + variable + ": ") && HasSuffix(t, cause)
      ensures InvalidEndpoint? ==> |t| == |"invalid " + variable + ": "| + |cause|
    {
      match this
      case MissingConfiguration(component, names) =>
        var p := "missing " + component + " configuration: ";
        assert (p + Join(names, ", "))[..|p|] == p;
        p + Join(names, ", ")
      case InvalidEndpoint(variable, cause) =>
        var p := "invalid " + variable + ": ";
        assert (p + cause)[..|p|] == p;
        p + cause
    }
  }

  /** The text of a missing-configuration error names the missing variables
      unambiguously: two such errors of one component read the same only if
      they report the same names in the same order. */
  lemma MissingTextDeterminesNames(component: string, a: seq<string>, b: seq<string>)
    requires PlainNames(a) && PlainNames(b)
    requires MissingConfiguration(component, a).Text() == MissingConfiguration(component, b).Text()
    ensures a == b
  {
    var prefix := "missing " + component + " configuration: ";
    var ta := MissingConfiguration(component, a).Text();
    assert ta == prefix + Join(a, ", ");
    assert Join(a, ", ") == ta[|prefix|..] == Join(b, ", ");
    JoinInjective(a, b);
  }
}
