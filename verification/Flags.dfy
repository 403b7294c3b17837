/** `resolve_from`: layering defaults, environment and command line into one configuration map. */
module Flags {
  import opened Prelude
  import opened Text
  import opened OperationIds

  type Values = map<string, string>

  datatype Scalar = Null | Text(text: string) | Compound

  /** What the argument parser hands over: the layers, and what it could not place. */
  datatype Parsed = Parsed(
    dotenv: Values, dotenvOverrides: Values, providedFlags: Values,
    unknownOptions: seq<string>, errors: seq<string>, extras: seq<string>)

  /** Why a resolution fails; `detail` is what the coercion of the library says. */
  datatype FlagError =
    | UnknownOptions(names: seq<string>)
    | InvalidValues(count: nat)
    | UnexpectedArguments(count: nat)
    | CoercionFailed(detail: string)
    | NonScalar(name: string)

  const COMMAND := "FLAGS2ENV_COMMAND"

  /** `option_name`: what an error may repeat of an unknown option. */
  function OptionName(option: string): string {
    if StartsWith(option, "--") then "--" + option[2..][..Find(option[2..], '=')]
    else option[..if |option| < 2 then |option| else 2]
  }

  /** The order of `String`. */
  predicate Less(a: string, b: string) {
    b != "" && (a == "" || a[0] < b[0] || (a[0] == b[0] && Less(a[1..], b[1..])))
  }

  /** `BTreeSet::insert`, on the set's elements in order. */
  function Insert(names: seq<string>, name: string): seq<string> {
    if names == [] then [name]
    else if name == names[0] then names
    else if Less(name, names[0]) then [name] + names
    else [names[0]] + Insert(names[1..], name)
  }

  /** The names an error reports: those of the options, in order and without repetition. */
  function OptionNames(options: seq<string>): seq<string> {
    if options == [] then [] else Insert(OptionNames(options[..|options| - 1]), OptionName(options[|options| - 1]))
  }

  const SEPARATOR := ", "

  function Join(names: seq<string>): string {
    if names == [] then ""
    else if |names| == 1 then names[0]
    else names[0] + SEPARATOR + Join(names[1..])
  }

  /** What the caller of `resolve_from` gets to see. */
  function Message(error: FlagError): string {
    match error
    case UnknownOptions(names) => "unknown command-line option(s): " + Join(names)
    case InvalidValues(count) => "invalid command-line value(s): " + Decimal(count) + " error(s)"
    case UnexpectedArguments(count) => "unexpected positional argument(s): " + Decimal(count)
    case CoercionFailed(detail) => "flags-2-env typed configuration failed: " + detail
    case NonScalar(name) => "flags-2-env returned a non-scalar value for " + name
  }

  /** The checks before any value is read. */
  function Preflight(parsed: Parsed): Option<FlagError> {
    if parsed.unknownOptions != [] then Some(UnknownOptions(OptionNames(parsed.unknownOptions)))
    else if parsed.errors != [] then Some(InvalidValues(|parsed.errors|))
    else if parsed.extras != [] then Some(UnexpectedArguments(|parsed.extras|))
    else None
  }

  function OrElse(first: Option<string>, second: Option<string>): Option<string> {
    if first.Some? then first else second
  }

  /** The precedence law, one name at a time: flags, then dotenv overrides, then the environment, then dotenv
      defaults; the parser's own command variable comes from a flag or not at all. */
  function Layered(parsed: Parsed, environment: Values, name: string): Option<string> {
    OrElse(Lookup(parsed.providedFlags, name),
           if name == COMMAND then None
           else OrElse(Lookup(parsed.dotenvOverrides, name),
                       OrElse(Lookup(environment, name), Lookup(parsed.dotenv, name))))
  }

  /** The raw map is the one the precedence law describes. */
  ghost predicate IsLayered(raw: Values, parsed: Parsed, environment: Values) {
    forall name :: Lookup(raw, name) == Layered(parsed, environment, name)
  }

  type Typed = seq<(string, Scalar)>

  ghost predicate DistinctNames(typed: Typed) {
    forall i, j :: 0 <= i < j < |typed| ==> typed[i].0 != typed[j].0
  }

  /** Does the typed configuration give this name a value of its own? */
  ghost predicate Gives(typed: Typed, name: string, text: string) {
    exists i :: 0 <= i < |typed| && typed[i] == (name, Text(text))
  }

  ghost predicate AllScalar(typed: Typed) {
    forall i :: 0 <= i < |typed| ==> !typed[i].1.Compound?
  }

  /** The error names the first value that is not a scalar. */
  ghost predicate FirstCompound(typed: Typed, error: FlagError) {
    exists i :: 0 <= i < |typed| && typed[i].1.Compound? && AllScalar(typed[..i]) && error == NonScalar(typed[i].0)
  }

  /** The resolved map: each typed scalar under its name, the untouched environment elsewhere. */
  ghost predicate IsResolved(resolved: Values, typed: Typed, environment: Values) {
    && (forall name, text :: Gives(typed, name, text) ==> Lookup(resolved, name) == Some(text))
    && (forall name :: (forall text :: !Gives(typed, name, text)) ==>
          Lookup(resolved, name) == Lookup(environment, name))
  }

  /** Merge the layers in place, as the source does: later layers overwrite. */
  method MergeLayers(parsed: Parsed, environment: Values) returns (raw: Values)
    ensures IsLayered(raw, parsed, environment)
  {
    raw := parsed.dotenv;
    raw := raw + environment;
    raw := raw + parsed.dotenvOverrides;
    raw := raw - {COMMAND};
    raw := raw + parsed.providedFlags;
  }

  /** Overlay the typed values on the environment, in whatever order the typed map is iterated. */
  method Overlay(typed: Typed, environment: Values) returns (result: Result<Values, FlagError>)
    requires DistinctNames(typed)
    ensures result.Ok? <==> AllScalar(typed)
    ensures result.Ok? ==> IsResolved(result.value, typed, environment)
    ensures result.Err? ==> FirstCompound(typed, result.error)
  {
    var resolved := environment;
    var i := 0;
    while i < |typed|
      invariant i <= |typed|
      invariant AllScalar(typed[..i])
      invariant IsResolved(resolved, typed[..i], environment)
    {
      var (name, value) := typed[i];
      if value.Compound? {
        return Err(NonScalar(name));
      }
      ghost var before := resolved;
      if !value.Null? {
        resolved := resolved[name := value.text];
      }
      OverlayStep(before, resolved, typed, i, environment);
      i := i + 1;
    }
    assert typed[..i] == typed;
    result := Ok(resolved);
  }

  lemma OverlayStep(before: Values, after: Values, typed: Typed, i: nat, environment: Values)
    requires DistinctNames(typed) && i < |typed| && !typed[i].1.Compound?
    requires IsResolved(before, typed[..i], environment)
    requires after == if typed[i].1.Null? then before else before[typed[i].0 := typed[i].1.text]
    ensures IsResolved(after, typed[..i + 1], environment)
  {
    var now, next, entry := typed[..i], typed[..i + 1], typed[i];
    assert next == now + [entry];
    forall name, text ensures Gives(next, name, text) <==> Gives(now, name, text) || entry == (name, Text(text)) {
      if Gives(now, name, text) {
        var k :| 0 <= k < |now| && now[k] == (name, Text(text));
        assert next[k] == (name, Text(text));
      }
      if entry == (name, Text(text)) { assert next[i] == (name, Text(text)); }
    }
    forall name, text | Gives(next, name, text) ensures Lookup(after, name) == Some(text) {
      if Gives(now, name, text) {
        var k :| 0 <= k < |now| && now[k] == (name, Text(text));
        assert typed[k].0 != typed[i].0;
      }
    }
    forall name | forall text :: !Gives(next, name, text) ensures Lookup(after, name) == Lookup(environment, name) {
      assert entry.1.Text? ==> Gives(next, entry.0, entry.1.text);
      assert forall text :: !Gives(now, name, text);
    }
  }

  /** What `resolve_from` may return, after the parser ran.  `coerce` stands for the typed coercion of the library. */
  ghost predicate Resolves(parsed: Parsed, environment: Values, coerce: Values -> Result<Typed, string>,
                           result: Result<Values, FlagError>)
  {
    match Preflight(parsed)
    case Some(error) => result == Err(error)
    case None =>
      exists raw :: IsLayered(raw, parsed, environment)
        && match coerce(raw)
           case Err(detail) => result == Err(CoercionFailed(detail))
           case Ok(typed) =>
             && (result.Ok? <==> AllScalar(typed))
             && (result.Ok? ==> IsResolved(result.value, typed, environment))
             && (result.Err? ==> FirstCompound(typed, result.error))
  }

  /** `resolve_from`: errors in the source's order, otherwise the overlay of the coerced layered map. */
  method ResolveFrom(parsed: Parsed, environment: Values, coerce: Values -> Result<Typed, string>)
    returns (result: Result<Values, FlagError>)
    requires forall raw :: coerce(raw).Ok? ==> DistinctNames(coerce(raw).value)
    ensures Resolves(parsed, environment, coerce, result)
  {
    if parsed.unknownOptions != [] {
      return Err(UnknownOptions(OptionNames(parsed.unknownOptions)));
    }
    if parsed.errors != [] {
      return Err(InvalidValues(|parsed.errors|));
    }
    if parsed.extras != [] {
      return Err(UnexpectedArguments(|parsed.extras|));
    }
    var raw := MergeLayers(parsed, environment);
    var typed := coerce(raw);
    if typed.Err? {
      return Err(CoercionFailed(typed.error));
    }
    result := Overlay(typed.value, environment);
  }

  // ---------------------------------------------------------------- the laws

  /** Maps that agree name by name are equal: the laws above leave one raw map and one resolved map. */
  lemma LookupExtensional(a: Values, b: Values)
    requires forall name :: Lookup(a, name) == Lookup(b, name)
    ensures a == b
  {
    forall name ensures name in a <==> name in b {
      assert Lookup(a, name) == Lookup(b, name);
    }
    forall name | name in a ensures a[name] == b[name] {
      assert Lookup(a, name) == Lookup(b, name);
    }
  }

  lemma RawUnique(a: Values, b: Values, parsed: Parsed, environment: Values)
    requires IsLayered(a, parsed, environment) && IsLayered(b, parsed, environment)
    ensures a == b
  {
    LookupExtensional(a, b);
  }

  /** The order in which the typed map is iterated changes neither success nor the resolved map. */
  lemma OrderIrrelevant(typed: Typed, other: Typed, a: Values, b: Values, environment: Values)
    requires forall entry :: entry in typed <==> entry in other
    requires IsResolved(a, typed, environment) && IsResolved(b, other, environment)
    ensures AllScalar(typed) <==> AllScalar(other)
    ensures a == b
  {
    forall name, text ensures Gives(typed, name, text) <==> Gives(other, name, text) {
      assert Gives(typed, name, text) <==> (name, Text(text)) in typed;
      assert Gives(other, name, text) <==> (name, Text(text)) in other;
    }
    assert AllScalar(typed) <==> forall entry :: entry in typed ==> !entry.1.Compound?;
    assert AllScalar(other) <==> forall entry :: entry in other ==> !entry.1.Compound?;
    forall name ensures Lookup(a, name) == Lookup(b, name) {
      if text :| Gives(typed, name, text) {
        assert Gives(other, name, text);
      }
    }
    LookupExtensional(a, b);
  }

  /** The layers, from the strongest: a flag, a dotenv override, the environment, a dotenv default; the command
      variable of the parser comes from a flag alone. */
  lemma Precedence(raw: Values, parsed: Parsed, environment: Values, name: string)
    requires IsLayered(raw, parsed, environment)
    ensures if name in parsed.providedFlags then name in raw && raw[name] == parsed.providedFlags[name]
            else if name == "FLAGS2ENV_COMMAND" then name !in raw
            else if name in parsed.dotenvOverrides then name in raw && raw[name] == parsed.dotenvOverrides[name]
            else if name in environment then name in raw && raw[name] == environment[name]
            else if name in parsed.dotenv then name in raw && raw[name] == parsed.dotenv[name]
            else name !in raw
  {
    assert Lookup(raw, name) == Layered(parsed, environment, name);
  }
}
