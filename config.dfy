/**
 * A path-scoped, type-coercing configuration accessor. A `Config` holds a
 * prefix of path segments and a loader; each getter appends the field name
 * to the prefix, asks the loader for the raw value at that path and coerces
 * it to the requested type. Every failure is returned to the caller and also
 * appended to the accessor's own error log.
 */
module Config {
  import opened Wrappers
  import opened Strings
  import opened Strconv

  // ---------------------------------------------------------------------
  // Raw values and errors

  /** An IEEE-754 single, kept as its bit pattern; no arithmetic is modelled. */
  datatype Float32 = Float32(bits: bv32)

  /** An IEEE-754 double, kept as its bit pattern; bits 0 are +0.0. */
  datatype Float64 = Float64(bits: bv64)

  const FLOAT64_ZERO: Float64 := Float64(0)

  /**
   * What a loader can produce (Go's `interface{}`): the string, bool, int,
   * float32 and float64 kinds the getters look for, and any other dynamic
   * type (int32, uint, a slice, ...) named by `typeName`.
   */
  datatype Raw =
    | RString(s: string)
    | RBool(b: bool)
    | RInt(i: Int64)
    | RFloat32(f32: Float32)
    | RFloat64(f64: Float64)
    | ROther(typeName: string)

  /**
   * The errors that reach a log. A loader reports its own errors
   * (`LoaderError`, or `MissingVariable` for the environment loader); the
   * getters report a raw value of the wrong kind, naming the field; the
   * number parsers report a `strconv.NumError`.
   */
  datatype Err =
    | LoaderError(message: string)
    | MissingVariable(variable: string)
    | NotAString(name: string)
    | NotABool(name: string)
    | NotAnInt(name: string)
    | NotAFloat(name: string)
    | NumError(func: string, num: string, reason: NumReason)

  /** The text of `err.Error()`; `strconv.Quote` escaping is not modelled. */
  function Message(e: Err): string {
    match e
    case LoaderError(m) => m
    case MissingVariable(v) => "environment variable " + v + " does not exist"
    case NotAString(n) => "value is not a string for name " + n
    case NotABool(n) => "value is not a valid boolean or parseable string for name " + n
    case NotAnInt(n) => "value is not an int or parseable string for name " + n
    case NotAFloat(n) => "value is not a compatible float (32, 64), int or parseable string for name " + n
    case NumError(f, num, reason) =>
      "strconv." + f + ": parsing \"" + num + "\": "
      + (if reason == Syntax then "invalid syntax" else "value out of range")
  }

  /** For a path, the raw value stored there or why there is none. */
  type Loader = seq<string> -> Result<Raw, Err>

  /**
   * The float conversions GetFloat delegates to the Go runtime:
   * `strconv.ParseFloat(s, 64)`, `float64(f32)` and `float64(i)`.
   */
  datatype FloatConversions = FloatConversions(
    parseFloat: string -> Result<Float64, Err>,
    widen: Float32 -> Float64,
    fromInt: Int64 -> Float64)

  const ACCEPTABLE_TRUETHY: seq<string> := ["yes", "1", "true", "y"]
  const ACCEPTABLE_FALSY: seq<string> := ["no", "0", "false", "n"]

  // ---------------------------------------------------------------------
  // inArray

  /** Whether the lower-cased needle is one of the haystack's strings. */
  method InArray(needle: string, haystack: seq<string>) returns (found: bool)
    ensures found <==> ToLower(needle) in haystack
  {
    for i := 0 to |haystack|
      invariant ToLower(needle) !in haystack[..i]
    {
      if haystack[i] == ToLower(needle) {
        return true;
      }
    }
    return false;
  }

  // ---------------------------------------------------------------------
  // Coercion of a raw value, per target type

  function CoerceString(name: string, raw: Raw): (r: Result<string, Err>)
    ensures r.Failure? ==> r.error == NotAString(name)
  {
    match raw
    case RString(s) => Success(s)
    case _ => Failure(NotAString(name))
  }

  function CoerceBool(name: string, raw: Raw): (r: Result<bool, Err>)
    ensures r.Failure? ==> r.error == NotABool(name)
  {
    match raw
    case RString(s) =>
      if ToLower(s) in ACCEPTABLE_TRUETHY then Success(true)
      else if ToLower(s) in ACCEPTABLE_FALSY then Success(false)
      else Failure(NotABool(name))
    case RBool(b) => Success(b)
    case _ => Failure(NotABool(name))
  }

  function CoerceInt(name: string, raw: Raw): (r: Result<Int64, Err>)
    ensures r.Failure? ==> r.error == NotAnInt(name) || (raw.RString? && r.error.NumError?)
  {
    match raw
    case RString(s) =>
      (match Atoi(s)
       case Success(n) => Success(n)
       case Failure(reason) => Failure(NumError("Atoi", s, reason)))
    case RInt(i) => Success(i)
    case _ => Failure(NotAnInt(name))
  }

  function CoerceFloat(name: string, raw: Raw, conv: FloatConversions): (r: Result<Float64, Err>)
    ensures r.Failure? ==> r.error == NotAFloat(name) || raw.RString?
  {
    match raw
    case RString(s) => conv.parseFloat(s)
    case RFloat32(f) => Success(conv.widen(f))
    case RFloat64(f) => Success(f)
    case RInt(i) => Success(conv.fromInt(i))
    case _ => Failure(NotAFloat(name))
  }

  // ---------------------------------------------------------------------
  // Lookup and coercion together: what a getter on `prefix` computes

  /** The loader's answer for field `name` under `prefix`. */
  function Lookup(loader: Loader, prefix: seq<string>, name: string): Result<Raw, Err> {
    loader(prefix + [name])
  }

  function ResolveString(loader: Loader, prefix: seq<string>, name: string): Result<string, Err> {
    match Lookup(loader, prefix, name)
    case Failure(e) => Failure(e)
    case Success(raw) => CoerceString(name, raw)
  }

  function ResolveBool(loader: Loader, prefix: seq<string>, name: string): Result<bool, Err> {
    match Lookup(loader, prefix, name)
    case Failure(e) => Failure(e)
    case Success(raw) => CoerceBool(name, raw)
  }

  function ResolveInt(loader: Loader, prefix: seq<string>, name: string): Result<Int64, Err> {
    match Lookup(loader, prefix, name)
    case Failure(e) => Failure(e)
    case Success(raw) => CoerceInt(name, raw)
  }

  function ResolveFloat(loader: Loader, prefix: seq<string>, name: string, conv: FloatConversions): Result<Float64, Err> {
    match Lookup(loader, prefix, name)
    case Failure(e) => Failure(e)
    case Success(raw) => CoerceFloat(name, raw, conv)
  }

  // ---------------------------------------------------------------------
  // The accessor

  class Config {
    const loader: Loader
    const pathElements: seq<string>
    var errors: seq<Err>

    /** The struct literal `&Config{loader: ..., pathElements: ...}`. */
    constructor (loader: Loader, pathElements: seq<string>)
      ensures this.loader == loader && this.pathElements == pathElements
      ensures errors == []
    {
      this.loader := loader;
      this.pathElements := pathElements;
      errors := [];
    }

    /** This accessor's own error log, oldest first. */
    function GetErrors(): (es: seq<Err>)
      reads this
      ensures es == errors
    {
      errors
    }

    /**
     * The panic message, if any: None when the log is empty, otherwise every
     * message followed by a newline, in log order, trimmed.
     */
    method TriggerErrorPanic() returns (panicMessage: Option<string>)
      ensures errors == [] ==> panicMessage == None
      ensures errors != [] ==> panicMessage == Some(TrimSpace(Combined(errors)))
      ensures errors != [] ==> panicMessage == Some(TrimSpace(Join(Messages(errors), "\n")))
    {
      if |errors| > 0 {
        var errorMsg := "";
        for i := 0 to |errors|
          invariant errorMsg == Combined(errors[..i])
        {
          assert errors[..i + 1][..i] == errors[..i];
          TerminatedAppend(Messages(errors[..i]), Message(errors[i]), "\n");
          errorMsg := errorMsg + Message(errors[i]) + "\n";
        }
        assert errors[..|errors|] == errors;
        CombinedIsJoinedMessages(errors);
        TrimSpaceAppendSpace(Join(Messages(errors), "\n"), '\n');
        return Some(TrimSpace(errorMsg));
      }
      return None;
    }

    /** A new accessor one segment deeper, same loader, empty log. */
    method ChildConfig(name: string) returns (child: Config)
      ensures fresh(child)
      ensures child.loader == loader && child.pathElements == pathElements + [name]
      ensures child.errors == []
    {
      child := new Config(loader, pathElements + [name]);
    }

    method GetString(name: string) returns (value: string, err: Option<Err>)
      modifies this`errors
      ensures value == ResolveString(loader, pathElements, name).GetOr("")
      ensures err == ResolveString(loader, pathElements, name).ErrorOption()
      ensures errors == old(errors) + ResolveString(loader, pathElements, name).Logged()
    {
      var loaded := loader(pathElements + [name]);
      if loaded.Failure? {
        errors := errors + [loaded.error];
        return "", Some(loaded.error);
      }
      if loaded.value.RString? {
        return loaded.value.s, None;
      }
      var e := NotAString(name);
      errors := errors + [e];
      return "", Some(e);
    }

    method MayGetString(name: string) returns (value: string)
      modifies this`errors
      ensures value == ResolveString(loader, pathElements, name).GetOr("")
      ensures errors == old(errors) + ResolveString(loader, pathElements, name).Logged()
    {
      var ignored;
      value, ignored := GetString(name);
    }

    method GetBool(name: string) returns (value: bool, err: Option<Err>)
      modifies this`errors
      ensures value == ResolveBool(loader, pathElements, name).GetOr(false)
      ensures err == ResolveBool(loader, pathElements, name).ErrorOption()
      ensures errors == old(errors) + ResolveBool(loader, pathElements, name).Logged()
    {
      var loaded := loader(pathElements + [name]);
      if loaded.Failure? {
        errors := errors + [loaded.error];
        return false, Some(loaded.error);
      }
      var raw := loaded.value;
      if raw.RString? {
        var truthy := InArray(raw.s, ACCEPTABLE_TRUETHY);
        if truthy {
          return true, None;
        }
        var falsy := InArray(raw.s, ACCEPTABLE_FALSY);
        if falsy {
          return false, None;
        }
      } else if raw.RBool? {
        return raw.b, None;
      }
      var e := NotABool(name);
      errors := errors + [e];
      return false, Some(e);
    }

    method MayGetBool(name: string) returns (value: bool)
      modifies this`errors
      ensures value == ResolveBool(loader, pathElements, name).GetOr(false)
      ensures errors == old(errors) + ResolveBool(loader, pathElements, name).Logged()
    {
      var ignored;
      value, ignored := GetBool(name);
    }

    method GetInt(name: string) returns (value: Int64, err: Option<Err>)
      modifies this`errors
      ensures value == ResolveInt(loader, pathElements, name).GetOr(0)
      ensures err == ResolveInt(loader, pathElements, name).ErrorOption()
      ensures errors == old(errors) + ResolveInt(loader, pathElements, name).Logged()
    {
      var loaded := loader(pathElements + [name]);
      if loaded.Failure? {
        errors := errors + [loaded.error];
        return 0, Some(loaded.error);
      }
      var raw := loaded.value;
      if raw.RString? {
        var parsed := Atoi(raw.s);
        if parsed.Failure? {
          var parseErr := NumError("Atoi", raw.s, parsed.error);
          errors := errors + [parseErr];
          return 0, Some(parseErr);
        }
        return parsed.value, None;
      } else if raw.RInt? {
        return raw.i, None;
      }
      var e := NotAnInt(name);
      errors := errors + [e];
      return 0, Some(e);
    }

    method MayGetInt(name: string) returns (value: Int64)
      modifies this`errors
      ensures value == ResolveInt(loader, pathElements, name).GetOr(0)
      ensures errors == old(errors) + ResolveInt(loader, pathElements, name).Logged()
    {
      var ignored;
      value, ignored := GetInt(name);
    }

    method GetFloat(name: string, conv: FloatConversions) returns (value: Float64, err: Option<Err>)
      modifies this`errors
      ensures value == ResolveFloat(loader, pathElements, name, conv).GetOr(FLOAT64_ZERO)
      ensures err == ResolveFloat(loader, pathElements, name, conv).ErrorOption()
      ensures errors == old(errors) + ResolveFloat(loader, pathElements, name, conv).Logged()
    {
      var loaded := loader(pathElements + [name]);
      if loaded.Failure? {
        errors := errors + [loaded.error];
        return FLOAT64_ZERO, Some(loaded.error);
      }
      match loaded.value
      case RString(t) =>
        var parsed := conv.parseFloat(t);
        if parsed.Failure? {
          errors := errors + [parsed.error];
          return FLOAT64_ZERO, Some(parsed.error);
        }
        return parsed.value, None;
      case RFloat32(f) =>
        return conv.widen(f), None;
      case RFloat64(f) =>
        return f, None;
      case RInt(i) =>
        return conv.fromInt(i), None;
      case _ =>
        var e := NotAFloat(name);
        errors := errors + [e];
        return FLOAT64_ZERO, Some(e);
    }

    method MayGetFloat(name: string, conv: FloatConversions) returns (value: Float64)
      modifies this`errors
      ensures value == ResolveFloat(loader, pathElements, name, conv).GetOr(FLOAT64_ZERO)
      ensures errors == old(errors) + ResolveFloat(loader, pathElements, name, conv).Logged()
    {
      var ignored;
      value, ignored := GetFloat(name, conv);
    }
  }

  /** A root accessor for an application: the prefix is its name alone. */
  method NewConfig(applicationName: string, loader: Loader) returns (c: Config)
    ensures fresh(c)
    ensures c.loader == loader && c.pathElements == [applicationName] && c.errors == []
  {
    c := new Config(loader, [applicationName]);
  }

  // ---------------------------------------------------------------------
  // TriggerErrorPanic's message

  function Messages(es: seq<Err>): (ms: seq<string>)
    ensures |ms| == |es| && forall i :: 0 <= i < |es| ==> ms[i] == Message(es[i])
  {
    if es == [] then []
    else
      var p := es[..|es| - 1];
      assert forall i :: 0 <= i < |p| ==> p[i] == es[i];
      Messages(p) + [Message(es[|es| - 1])]
  }

  /** Each error's message followed by "\n", in log order. */
  function Combined(es: seq<Err>): string {
    Terminated(Messages(es), "\n")
  }

  /** The combined text is the messages joined by newlines, plus a final newline. */
  lemma CombinedIsJoinedMessages(es: seq<Err>)
    requires es != []
    ensures Combined(es) == Join(Messages(es), "\n") + "\n"
  {
    TerminatedIsJoin(Messages(es), "\n");
  }

  // ---------------------------------------------------------------------
  // The environment loader

  /** The variable for a path: its segments joined by '_', upper-cased. */
  function VariableName(path: seq<string>): string {
    ToUpper(Join(path, "_"))
  }

  /** `NewEnvironmentLoader()` over a snapshot `env` of the process environment. */
  function EnvironmentLoader(env: map<string, string>): Loader {
    path =>
      var variableName := VariableName(path);
      if variableName in env then Success(RString(env[variableName]))
      else Failure(MissingVariable(variableName))
  }
}
