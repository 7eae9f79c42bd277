# flowpl/config in Dafny

A model of the Go package `config`: a path-scoped, type-coercing
configuration accessor. A `Config` holds a loader and a prefix of path
segments (`NewConfig("app", l)` starts at `["app"]`; `ChildConfig(s)` makes a
new accessor one segment deeper, with the same loader and an empty error
log). Each getter looks up `prefix ++ [name]` through the loader and coerces
the raw value by a fixed table:

- `GetString` accepts only a raw string.
- `GetBool` passes a raw bool through. A string is `true` when its lower-cased
  form is in `ACCEPTABLE_TRUETHY` (yes, 1, true, y) and `false` when it is in
  `ACCEPTABLE_FALSY` (no, 0, false, n).
- `GetInt` passes a raw int through. A string goes through `strconv.Atoi`.
- `GetFloat` accepts a string (through `ParseFloat`), a float32, a float64 and
  an int.

Every failure is appended to the accessor's own `errors` log and also returned.
The `MayGet*` variants return only the value. `TriggerErrorPanic` folds the
log into one trimmed message. The environment loader reads the variable
`ToUpper(Join(path, "_"))`.

Files and modules:

- `wrappers.dfy` (`Wrappers`): `Option` and `Result` (Go's `(value, error)` pair).
- `strings.dfy` (`Strings`): what `config.go` uses from Go's `strings`
  package: `ToLower`, `ToUpper`, `Join` and `TrimSpace`.
- `strconv.dfy` (`Strconv`): `strconv.Atoi` for a 64-bit `int`, checked
  against a reference definition of decimal numerals.
- `config.dfy` (`Config`): the raw values, the errors and their messages,
  `inArray`, the coercion tables, the class `Config` with its getters,
  `NewConfig`, the panic message and the environment loader.
- `config_properties.dfy` (`ConfigProperties`): lemmas that hold for all
  inputs of the coercion tables, the lookup path, the environment loader and
  the panic message. It also has client methods that drive `Config` objects
  through the scenarios of `config_test.go`.
- `goslices.dfy` (`GoSlices`): Go slices with shared backing arrays, used only
  for the finding below.

`Config` is a class. `loader` and `pathElements` are `const` fields, because Go
never changes them after construction. `errors` is the one mutable field.
Every getter has `modifies this`errors`, and its contract gives the new log
exactly: `old(errors)`, plus the one error if the getter failed. The value
each getter computes is given by a pure function `ResolveX(loader,
pathElements, name)`. That function calls the loader on `pathElements +
[name]` and then applies the coercion `CoerceX`. The lemmas in
`ConfigProperties` state what those functions mean.

`GetInt` and `GetFloat` record the `strconv` error itself
(config.go:105-108, 134-137). That error names the input string, not the
field. The model records `NumError("Atoi", s, reason)`.

## Model

| member | source | states |
|---|---|---|
| `Strings.ToLower` | config.go:193 | the result has the same length; each character is mapped to lower case on its own (ASCII); the result has no upper-case letter |
| `Strings.ToUpper` | config.go:164 | the result has the same length; each character is mapped to upper case on its own (ASCII); the result has no lower-case letter |
| `Strings.ToLowerMatchesIgnoringCase` | config.go:191-198 | for a target with no upper-case letter, `ToLower(s) == t` holds exactly when `s` and `t` are equal character by character up to case; this is how `inArray` matches case-insensitively |
| `Strings.ToUpperAppend` | config.go:164 | upper-casing distributes over concatenation |
| `Strings.JoinAppend` | config.go:164 | joining one more part appends the separator and that part |
| `Strings.TrimSpace` | config.go:35 | the result starts and ends with no white space (Go's `unicode.IsSpace` set); it is computed as `strings.TrimSpace` does, by a forward scan for the start and a backward scan for the end that stops at the start |
| `Strings.TrimSpaceRemovesOnlySpace` | config.go:35 | the result is the slice of `s` after its leading white space, and everything cut off at both ends is white space |
| `Strings.TrimSpaceAppendSpace` | config.go:33-35 | a trailing white-space character (the last "\n") makes no difference to the trimmed message |
| `Strconv.AtoiCorrect` | config.go:105-110 | `Atoi` succeeds exactly on an optional sign followed by one or more decimal digits whose value fits in int64, and it then returns that value; such a numeral out of range is a range error |
| `Strconv.AtoiFormatInt` | config_test.go:205-228 | round trip: `Atoi(FormatInt(n)) == n` for every int64 `n` |
| `Strconv.AtoiSyntaxError` | config.go:105-108 | a non-numeral of at most 19 characters after the sign (for example "true") is a syntax error, never a range error |
| `Strconv.ScanDigits` | config.go:105 | the digit loop ends with a value between the accumulated start value and 2^64 - 1 |
| `Config.InArray` | config.go:191-198 | returns true exactly when the lower-cased needle is one of the haystack's strings |
| `Config.CoerceString` | config.go:53-60 | the only failure is `NotAString(name)`, which names the field |
| `Config.CoerceBool` | config.go:75-88 | the only failure is `NotABool(name)`, which names the field |
| `Config.CoerceInt` | config.go:103-117 | a failure is `NotAnInt(name)`, or, for a raw string, the parser's `NumError` |
| `Config.CoerceFloat` | config.go:132-150 | a failure is `NotAFloat(name)`, or comes from parsing a raw string |
| `Config.Config.constructor` | config.go:40-43 | the accessor has the given loader and prefix and an empty log |
| `Config.NewConfig` | config.go:158-160 | a fresh root accessor with prefix `[applicationName]`, the given loader and an empty log |
| `Config.Config.ChildConfig` | config.go:39-44 | a fresh accessor with the same loader, prefix `pathElements + [name]` and an empty log; the parent is not modified |
| `Config.Config.GetErrors` | config.go:25-27 | returns this accessor's own log, oldest first |
| `Config.Config.GetString` | config.go:46-61 | the value is the raw string at `pathElements + [name]`, or "" on failure; the error is the loader's own error or `NotAString(name)`; the log grows by exactly that error, and is unchanged on success |
| `Config.Config.MayGetString` | config.go:63-66 | the same value and the same effect on the log as `GetString`; no error is returned |
| `Config.Config.GetBool` | config.go:68-89 | the value is the coerced bool, or false on failure; the error is the loader's own error or `NotABool(name)`; the log grows by exactly that error, and is unchanged on success |
| `Config.Config.MayGetBool` | config.go:91-94 | the same value and the same effect on the log as `GetBool`; no error is returned |
| `Config.Config.GetInt` | config.go:96-118 | the value is the coerced int, or 0 on failure; the error is the loader's own error, Atoi's `NumError` or `NotAnInt(name)`; the log grows by exactly that error, and is unchanged on success |
| `Config.Config.MayGetInt` | config.go:120-123 | the same value and the same effect on the log as `GetInt`; no error is returned |
| `Config.Config.GetFloat` | config.go:125-151 | the value is the dispatched float, or +0.0 on failure; the error is the loader's own error, the parse error or `NotAFloat(name)`; the log grows by exactly that error, and is unchanged on success |
| `Config.Config.MayGetFloat` | config.go:153-156 | the same value and the same effect on the log as `GetFloat`; no error is returned |
| `Config.Config.TriggerErrorPanic` | config.go:29-37 | no panic (None) when the log is empty; otherwise the panic message is the trimmed concatenation of each message followed by "\n", in log order, which is also the trimmed newline-join of the messages |
| `Config.Messages` | config.go:32-33 | the messages of the log's errors, in order |
| `Strings.TerminatedIsJoin` | config.go:31-34 | text built by appending each part and then a separator is the parts joined by that separator, plus one final separator |
| `Config.CombinedIsJoinedMessages` | config.go:31-34 | the loop's accumulated text is the messages joined by "\n", plus a final "\n" |
| `ConfigProperties.ResolveReadsOnePath` | config.go:47 | each getter depends on the loader only through its answer for `prefix + [name]`: two loaders that agree there give the same result to all four getters |
| `ConfigProperties.LoaderErrorPassesThrough` | config.go:47-51 | when the loader fails at that path, all four getters fail with the loader's own error, and no coercion is attempted |
| `ConfigProperties.StringCoercion` | config.go:53-60 | the coercion gives `v` exactly when the raw value is the string `v`; every other kind is `NotAString(name)` |
| `ConfigProperties.BoolFromString` | config.go:75-81 | a string gives true exactly when it equals yes, 1, true or y in any case; false exactly when it equals no, 0, false or n in any case; and otherwise `NotABool(name)` |
| `ConfigProperties.BoolFromOtherKinds` | config.go:82-88 | a raw bool is returned unchanged; any kind other than string and bool is `NotABool(name)` |
| `ConfigProperties.BoolExamples` | config_test.go:11-30 | "TRUE" and "Y" give true; "NO" gives false; "NotABool" is `NotABool(name)` |
| `ConfigProperties.IntFromString` | config.go:104-110 | a string is an int exactly when it is an in-range decimal numeral, and then it is that numeral's value; otherwise the error recorded is exactly Atoi's `NumError` for that string |
| `ConfigProperties.IntRoundTrip` | config_test.go:205-228 | the decimal form of every int64 coerces back to that number |
| `ConfigProperties.IntExamples` | config_test.go:205-214 | "-2000000000" and "2000000000" give -2000000000 and 2000000000 |
| `ConfigProperties.IntFromOtherKinds` | config.go:111-117 | a raw int is returned unchanged; any kind other than string and int is `NotAnInt(name)` |
| `ConfigProperties.FloatDispatch` | config.go:132-150 | GetFloat fails exactly on a string that ParseFloat rejects, a bool, or another kind; a float64 passes unchanged; a float32 is widened; an int is converted |
| `ConfigProperties.VariableNameAppend` | config.go:164 | a child path's variable name is the parent's name, then "_", then the upper-cased segment |
| `ConfigProperties.EnvironmentLoaderLookup` | config.go:162-171 | a present variable gives its value as a raw string; an absent one gives an error naming the computed variable |
| `ConfigProperties.VariableNameExample` | config_test.go:510-523 | the path app, one, value names the variable `APP_ONE_VALUE` |
| `ConfigProperties.PanicMessageOfOneError` | config.go:29-37 | with only one error in the log, the panic message is that error's message, trimmed |
| `GoSlices.Append` | config.go:42 | Go's `append` gives a slice showing the old elements plus the new one; with spare capacity it reuses the slice's own array and writes only its slot `len`, and when full it adds one new array and changes no existing one |
| `GoSlices.ParentLookupOverwritesChildPrefix` | config.go:42-47 | as written: a getter on a depth-3 scope rewrites the last segment of its child's prefix |
| `GoSlices.AppendCopyPreservesOthers` | config.go:42 | with copy-on-derive, an append never changes what any other slice shows |

The client methods `ConfigProperties.PathScenario`, `EnvironmentScenario`,
`MissingVariableScenario` and `CoercionScenario` have no contract. Each one
drives `Config` objects the way `config_test.go` does and asserts what the
contracts above imply. The cases are the four-level and two-level lookup
paths (config_test.go:461-508), the environment round trip
(config_test.go:510-523), a missing variable logged once in the child only,
and a mismatch and a parse error each logged once.

## Left out

- `strconv.ParseFloat`, `float64(float32)` and `float64(int)`
  (config.go:134-145) are float numerics. They are passed to `GetFloat` and
  `MayGetFloat` as the parameter `FloatConversions`. Float values are opaque
  bit patterns.
- Config.Config.GetFloat: its contract is weaker than the source. It gives the
  dispatch and the log effect exactly. For a string, a float32 and an int, the
  value is whatever the `FloatConversions` parameter returns, not IEEE-754
  conversion.
- `syscall.Getenv` (config.go:165) reads process state. `EnvironmentLoader`
  takes a snapshot of the environment as a `map<string, string>`.
- The `panic` in `TriggerErrorPanic` is not modelled as a panic. The method
  returns the message it would panic with, or None.
- Go slice aliasing through `append(c.pathElements, name)` is deliberately not
  reproduced in `Config`. Prefixes there are immutable sequences, so
  `pathElements + [name]` is always a copy. The aliasing is modelled
  separately in `GoSlices` (see Findings).
- Strings.ToLower: covers ASCII letters only, not Unicode case mapping.
- Strings.ToUpper: covers ASCII letters only, not Unicode case mapping.
- `strconv.Quote` escaping in the text of a `NumError` message is not modelled.
  The input is put between plain double quotes.
- Strconv.Atoi covers Go's `int` on 64-bit platforms only. The 32-bit range is
  not modelled.
- Loaders are pure, total functions. A Go loader closure that keeps state,
  like the path-recording loaders in `config_test.go`, is not modelled. What
  such a test observes, the path a getter looks up, is stated by
  `ResolveReadsOnePath` and the client methods instead.
- `ACCEPTABLE_TRUETHY` and `ACCEPTABLE_FALSY` (config.go:11-12) are exported,
  mutable package variables in Go, and `GetBool` reads whatever they hold at
  the time of the call. The model fixes both lists at their initial values
  (`const`). `BoolFromString` relies on those values having no upper-case
  letter. A list changed by a client to hold an upper-case entry such as
  "ON" would never match, in Go as in the model, and that case is not
  modelled.
- Go values of any dynamic type other than string, bool, int, float32 and
  float64 (for example int32 or a slice) are `ROther`. Every getter rejects
  them, as Go's type switch does.
- `GetErrors` returns the internal slice in Go, so a caller could change the
  log through it. The model returns a value.
- Concurrent use of one accessor is not modelled (the model is sequential).
- The file-based JSON loader (config.go:174-189) is dead code, commented out,
  and is not modelled.

## Findings

| source | as written | input that shows it | evidently intended | confidence | as-written member | corrected member |
|---|---|---|---|---|---|---|
| config.go:42, config.go:47 | `append(c.pathElements, name)` writes into the parent's backing array when that array has spare capacity. A derived scope and later lookups on its parent then share and overwrite the same slot | `p := NewConfig("app", l).ChildConfig("one").ChildConfig("two")` (length 3, capacity 4); `x := p.ChildConfig("x")`; then `p.GetString("f")`. Afterwards `x`'s prefix is app, one, two, f instead of app, one, two, x | every derived prefix is an independent copy (copy-on-derive), so siblings and ancestors never change it | not executed; depends on Go's `append` growing capacity 1, 2, 4 for `[]string` | `GoSlices.ParentLookupOverwritesChildPrefix` | `GoSlices.AppendCopyPreservesOthers` |

`Config` itself uses the corrected behaviour: a prefix is an immutable
sequence, and `ChildConfig` and the getters build `pathElements + [name]` as a
new value.
