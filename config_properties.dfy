/**
 * What the coercion tables, the lookup path, the environment loader and the
 * panic message mean, stated for all inputs; then client code that drives a
 * `Config` the way its callers do and checks what the contracts promise.
 */
module ConfigProperties {
  import opened Wrappers
  import opened Strings
  import opened Strconv
  import opened Config

  // ---------------------------------------------------------------------
  // Lookup path and the loader's own errors

  /**
   * A getter consults the loader on `prefix + [name]` and nowhere else: two
   * loaders that agree on that one path give the same result to every getter.
   */
  lemma ResolveReadsOnePath(l1: Loader, l2: Loader, prefix: seq<string>, name: string, conv: FloatConversions)
    requires l1(prefix + [name]) == l2(prefix + [name])
    ensures ResolveString(l1, prefix, name) == ResolveString(l2, prefix, name)
    ensures ResolveBool(l1, prefix, name) == ResolveBool(l2, prefix, name)
    ensures ResolveInt(l1, prefix, name) == ResolveInt(l2, prefix, name)
    ensures ResolveFloat(l1, prefix, name, conv) == ResolveFloat(l2, prefix, name, conv)
  {
  }

  /**
   * When the loader fails, every getter fails with the loader's own error.
   * This states the first branch of each getter outright; it needs no proof.
   */
  lemma LoaderErrorPassesThrough(loader: Loader, prefix: seq<string>, name: string, conv: FloatConversions, e: Err)
    requires loader(prefix + [name]) == Failure(e)
    ensures ResolveString(loader, prefix, name) == Failure(e)
    ensures ResolveBool(loader, prefix, name) == Failure(e)
    ensures ResolveInt(loader, prefix, name) == Failure(e)
    ensures ResolveFloat(loader, prefix, name, conv) == Failure(e)
  {
  }

  // ---------------------------------------------------------------------
  // GetString

  /**
   * Only a raw string is a string, and it is returned unchanged. This states
   * the type switch of GetString outright; it needs no proof.
   */
  lemma StringCoercion(name: string, raw: Raw, v: string)
    ensures CoerceString(name, raw) == Success(v) <==> raw == RString(v)
    ensures !raw.RString? ==> CoerceString(name, raw) == Failure(NotAString(name))
  {
  }

  // ---------------------------------------------------------------------
  // GetBool

  predicate Truthy(s: string) {
    exists t :: t in ACCEPTABLE_TRUETHY && EqualIgnoringCase(s, t)
  }

  predicate Falsy(s: string) {
    exists t :: t in ACCEPTABLE_FALSY && EqualIgnoringCase(s, t)
  }

  /**
   * A string is `true` when it equals one of yes, 1, true, y in any mix of
   * case, `false` when it equals one of no, 0, false, n in any case, and
   * otherwise a failure naming the field.
   */
  lemma BoolFromString(name: string, s: string)
    ensures CoerceBool(name, RString(s)) == Success(true) <==> Truthy(s)
    ensures CoerceBool(name, RString(s)) == Success(false) <==> Falsy(s)
    ensures CoerceBool(name, RString(s)) == Failure(NotABool(name)) <==> !Truthy(s) && !Falsy(s)
  {
    forall t | t in ACCEPTABLE_TRUETHY + ACCEPTABLE_FALSY
      ensures ToLower(s) == t <==> EqualIgnoringCase(s, t)
    {
      ToLowerMatchesIgnoringCase(s, t);
    }
  }

  lemma LowerExample(s: string, t: string)
    requires |s| == |t| && forall i :: 0 <= i < |s| ==> LowerChar(s[i]) == t[i]
    ensures ToLower(s) == t
  {
  }

  lemma BoolExamples(name: string)
    ensures CoerceBool(name, RString("TRUE")) == Success(true)
    ensures CoerceBool(name, RString("Y")) == Success(true)
    ensures CoerceBool(name, RString("NO")) == Success(false)
    ensures CoerceBool(name, RString("NotABool")) == Failure(NotABool(name))
  {
    BoolTrueExamples(name);
    BoolFalseExample(name);
    BoolErrorExample(name);
  }

  lemma BoolTrueExamples(name: string)
    ensures CoerceBool(name, RString("TRUE")) == Success(true)
    ensures CoerceBool(name, RString("Y")) == Success(true)
  {
    LowerExample("TRUE", "true");
    LowerExample("Y", "y");
  }

  lemma BoolFalseExample(name: string)
    ensures CoerceBool(name, RString("NO")) == Success(false)
  {
    LowerExample("NO", "no");
    assert "no" !in ACCEPTABLE_TRUETHY;
  }

  lemma BoolErrorExample(name: string)
    ensures CoerceBool(name, RString("NotABool")) == Failure(NotABool(name))
  {
    LowerExample("NotABool", "notabool");
    assert "notabool" !in ACCEPTABLE_TRUETHY;
    assert "notabool" !in ACCEPTABLE_FALSY;
  }

  /**
   * A raw bool passes through; any kind but string and bool fails. This states
   * the remaining arms of GetBool's type switch outright; it needs no proof.
   */
  lemma BoolFromOtherKinds(name: string, raw: Raw)
    requires !raw.RString?
    ensures raw.RBool? ==> CoerceBool(name, raw) == Success(raw.b)
    ensures !raw.RBool? ==> CoerceBool(name, raw) == Failure(NotABool(name))
  {
  }

  // ---------------------------------------------------------------------
  // GetInt

  /**
   * A string is an int exactly when it is an optionally signed decimal
   * numeral in the int64 range, and then it is its value; otherwise the
   * recorded error is Atoi's own `NumError` for that string.
   */
  lemma IntFromString(name: string, s: string)
    ensures CoerceInt(name, RString(s)).Success? <==> IsDecimal(s) && MIN_INT64 <= DecimalValue(s) <= MAX_INT64
    ensures CoerceInt(name, RString(s)).Success? ==> CoerceInt(name, RString(s)).value == DecimalValue(s)
    ensures CoerceInt(name, RString(s)).Failure? ==>
      CoerceInt(name, RString(s)).error == NumError("Atoi", s, Atoi(s).error)
  {
    AtoiCorrect(s);
  }

  /** The decimal form of any int64 is read back as that number. */
  lemma IntRoundTrip(name: string, n: Int64)
    ensures CoerceInt(name, RString(FormatInt(n))) == Success(n)
  {
    AtoiFormatInt(n);
  }

  /** Appending a zero digit multiplies by ten. */
  lemma FormatNatTimesTen(n: nat)
    requires n > 0
    ensures FormatNat(n * 10) == FormatNat(n) + "0"
  {
    assert n * 10 / 10 == n && n * 10 % 10 == 0;
  }

  lemma FormatTwoBillion()
    ensures FormatNat(2000000000) == "2000000000"
  {
    FormatNatTimesTen(2);
    FormatNatTimesTen(20);
    FormatNatTimesTen(200);
    FormatNatTimesTen(2000);
    FormatNatTimesTen(20000);
    FormatNatTimesTen(200000);
    FormatNatTimesTen(2000000);
    FormatNatTimesTen(20000000);
    FormatNatTimesTen(200000000);
  }

  lemma IntExamples(name: string)
    ensures CoerceInt(name, RString("-2000000000")) == Success(-2000000000)
    ensures CoerceInt(name, RString("2000000000")) == Success(2000000000)
  {
    FormatTwoBillion();
    assert FormatInt(2000000000) == "2000000000";
    assert FormatInt(-2000000000) == "-2000000000";
    IntRoundTrip(name, -2000000000);
    IntRoundTrip(name, 2000000000);
  }

  /**
   * A raw int passes through; any kind but string and int fails. This states
   * the remaining arms of GetInt's type switch outright; it needs no proof.
   */
  lemma IntFromOtherKinds(name: string, raw: Raw)
    requires !raw.RString?
    ensures raw.RInt? ==> CoerceInt(name, raw) == Success(raw.i)
    ensures !raw.RInt? ==> CoerceInt(name, raw) == Failure(NotAnInt(name))
  {
  }

  // ---------------------------------------------------------------------
  // GetFloat (dispatch only)

  /**
   * GetFloat accepts strings ParseFloat accepts, float32 (widened), float64
   * (unchanged) and int (converted); bool and every other kind fail with an
   * error naming the field. This states GetFloat's type switch outright as a
   * decision table; it needs no proof.
   */
  lemma FloatDispatch(name: string, raw: Raw, conv: FloatConversions)
    ensures CoerceFloat(name, raw, conv).Failure? <==>
      (raw.RString? && conv.parseFloat(raw.s).Failure?) || raw.RBool? || raw.ROther?
    ensures raw.RFloat64? ==> CoerceFloat(name, raw, conv) == Success(raw.f64)
    ensures raw.RFloat32? ==> CoerceFloat(name, raw, conv) == Success(conv.widen(raw.f32))
    ensures raw.RInt? ==> CoerceFloat(name, raw, conv) == Success(conv.fromInt(raw.i))
    ensures raw.RBool? || raw.ROther? ==> CoerceFloat(name, raw, conv) == Failure(NotAFloat(name))
  {
  }

  // ---------------------------------------------------------------------
  // The environment loader

  /** A child's variable name is the parent's, '_', and the upper-cased segment. */
  lemma {:induction false} VariableNameAppend(path: seq<string>, segment: string)
    requires path != []
    ensures VariableName(path + [segment]) == VariableName(path) + "_" + ToUpper(segment)
  {
    JoinAppend(path, segment, "_");
    ToUpperAppend(Join(path, "_") + "_", segment);
    ToUpperAppend(Join(path, "_"), "_");
  }

  /**
   * A present variable is a raw string; an absent one an error naming it.
   * This states the environment loader's two branches outright; it needs no
   * proof.
   */
  lemma EnvironmentLoaderLookup(env: map<string, string>, path: seq<string>)
    ensures VariableName(path) in env ==>
      EnvironmentLoader(env)(path) == Success(RString(env[VariableName(path)]))
    ensures VariableName(path) !in env ==>
      EnvironmentLoader(env)(path) == Failure(MissingVariable(VariableName(path)))
  {
  }

  lemma VariableNameExample()
    ensures VariableName(["app", "one", "value"]) == "APP_ONE_VALUE"
  {
    var path := ["app", "one", "value"];
    assert path[1..] == ["one", "value"] && path[1..][1..] == ["value"];
    assert Join(path, "_") == "app_one_value";
    UpperExample("app_one_value", "APP_ONE_VALUE");
  }

  lemma UpperExample(s: string, t: string)
    requires |s| == |t| && forall i :: 0 <= i < |s| ==> UpperChar(s[i]) == t[i]
    ensures ToUpper(s) == t
  {
  }

  // ---------------------------------------------------------------------
  // TriggerErrorPanic

  /** The panic message for a single error is that error's message, trimmed. */
  lemma PanicMessageOfOneError(e: Err)
    ensures TrimSpace(Combined([e])) == TrimSpace(Message(e))
  {
    TerminatedAppend([], Message(e), "\n");
    assert [] + [Message(e)] == Messages([e]);
    assert Combined([e]) == Message(e) + ['\n'];
    TrimSpaceAppendSpace(Message(e), '\n');
  }

  // ---------------------------------------------------------------------
  // Clients

  /** Derived scopes extend the path; the root's own lookups are unaffected. */
  method PathScenario()
  {
    var deep := ["app", "one", "two", "someName"];
    var loader: Loader := p => if p == deep then Success(RString("0")) else Failure(LoaderError("no value"));
    var c := NewConfig("app", loader);
    var child1 := c.ChildConfig("one");
    var child2 := child1.ChildConfig("two");
    assert child2.pathElements + ["someName"] == deep;

    var s, sErr := child2.GetString("someName");
    assert s == "0" && sErr == None;
    var b, bErr := child2.GetBool("someName");
    assert ToLower("0") == "0";
    assert b == false && bErr == None;
    assert child2.errors == [];

    var b2, b2Err := c.GetBool("someName");
    assert b2 == false && b2Err == Some(LoaderError("no value"));
    assert c.errors == [LoaderError("no value")];
    assert child1.errors == [] && child2.errors == [];
  }

  lemma MissingVariableNameExample()
    ensures VariableName(["app", "one", "missing"]) == "APP_ONE_MISSING"
  {
    var path := ["app", "one", "missing"];
    assert path[1..] == ["one", "missing"] && path[1..][1..] == ["missing"];
    assert Join(path, "_") == "app_one_missing";
    UpperExample("app_one_missing", "APP_ONE_MISSING");
  }

  /** The environment loader binds APP_ONE_VALUE to field "value" of scope "one". */
  method EnvironmentScenario()
  {
    var env := map["APP_ONE_VALUE" := "success"];
    var c := NewConfig("app", EnvironmentLoader(env));
    var child := c.ChildConfig("one");
    assert child.pathElements + ["value"] == ["app", "one", "value"];
    VariableNameExample();
    var v, err := child.GetString("value");
    assert v == "success" && err == None;
    assert child.errors == [];
  }

  /** A missing variable is logged once, in the child only, and reported by the panic. */
  method MissingVariableScenario()
  {
    var env := map["APP_ONE_VALUE" := "success"];
    var c := NewConfig("app", EnvironmentLoader(env));
    var child := c.ChildConfig("one");
    assert child.pathElements + ["missing"] == ["app", "one", "missing"];
    MissingVariableNameExample();
    assert "APP_ONE_MISSING" !in env;
    var missing := child.MayGetString("missing");
    assert missing == "";
    assert child.errors == [MissingVariable("APP_ONE_MISSING")];
    assert c.errors == [];

    var panicMessage := child.TriggerErrorPanic();
    PanicMessageOfOneError(MissingVariable("APP_ONE_MISSING"));
    assert panicMessage == Some(TrimSpace(Message(MissingVariable("APP_ONE_MISSING"))));
  }

  /** A type mismatch and an unparseable number are each logged once. */
  method CoercionScenario()
  {
    var loader: Loader := p => if p == ["app", "count"] then Success(RString("true")) else Success(RInt(65));
    var c := NewConfig("app", loader);
    assert c.pathElements + ["flag"] == ["app", "flag"];
    assert ["app", "flag"][1] != ["app", "count"][1];
    assert c.pathElements + ["count"] == ["app", "count"];
    var b, bErr := c.GetBool("flag");
    assert bErr == Some(NotABool("flag"));
    var n, nErr := c.GetInt("count");
    assert Atoi("true") == Failure(Syntax);
    assert n == 0 && nErr == Some(NumError("Atoi", "true", Syntax));
    var m := c.MayGetInt("flag");
    assert m == 65;
    assert c.errors == [NotABool("flag"), NumError("Atoi", "true", Syntax)];
  }
}
