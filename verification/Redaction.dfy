/** What the errors of `resolve_from` reveal of a command line, and what they do not. */
module Redaction {
  import opened Prelude
  import opened Text
  import opened OperationIds
  import opened Flags

  /** A value after `=` is not repeated. */
  lemma ValueNotRepeated(name: string, value: string, other: string)
    requires '=' !in name
    ensures OptionName("--" + name + "=" + value) == "--" + name
    ensures OptionName("--" + name + "=" + value) == OptionName("--" + name + "=" + other)
  {
    NameBeforeValue(name, value);
    NameBeforeValue(name, other);
  }

  lemma NameBeforeValue(name: string, value: string)
    requires '=' !in name
    ensures OptionName("--" + name + "=" + value) == "--" + name
  {
    var option := "--" + name + "=" + value;
    var rest := option[2..];
    assert rest == name + ['='] + value;
    var at := Find(rest, '=');
    assert rest == rest[..at] + ['='] + rest[at + 1..] by { assert rest[|name|] == '='; }
    SplitUnique(name, value, rest[..at], rest[at + 1..], '=');
  }

  /** A long option of this name, with a value or without. */
  ghost predicate IsLong(option: string, name: string) {
    '=' !in name && (option == "--" + name || exists value :: option == LongOption(name, value))
  }

  function LongOption(name: string, value: string): string {
    "--" + name + "=" + value
  }

  /** The first characters of a short option: the dash and the letter. */
  function Letter(option: string): string {
    if |option| < 2 then option else option[..2]
  }

  /** The two options differ at most in their values: long options of one name, or short options of one letter. */
  ghost predicate SameOption(a: string, b: string) {
    || (exists name :: IsLong(a, name) && IsLong(b, name))
    || (!StartsWith(a, "--") && !StartsWith(b, "--") && Letter(a) == Letter(b))
  }

  lemma LongNamed(option: string, name: string)
    ensures IsLong(option, name) <==> StartsWith(option, "--") && OptionName(option) == "--" + name
  {
    if IsLong(option, name) { LongKeepsName(option, name); }
    if StartsWith(option, "--") && OptionName(option) == "--" + name { NameMakesLong(option, name); }
  }

  lemma LongKeepsName(option: string, name: string)
    requires IsLong(option, name)
    ensures StartsWith(option, "--") && OptionName(option) == "--" + name
  {
    if option == "--" + name {
      assert option[2..] == name;
      assert Find(name, '=') == |name|;
    } else {
      var value :| option == LongOption(name, value);
      ValueNotRepeated(name, value, "");
      assert option[..2] == "--";
    }
  }

  lemma NameMakesLong(option: string, name: string)
    requires StartsWith(option, "--") && OptionName(option) == "--" + name
    ensures IsLong(option, name)
  {
    var rest, at := option[2..], Find(option[2..], '=');
    assert OptionName(option)[2..] == rest[..at];
    assert ("--" + name)[2..] == name;
    assert option == option[..2] + rest;
    if at < |rest| {
      assert rest == rest[..at] + "=" + rest[at + 1..];
      LongShape(option, name, rest[at + 1..]);
    } else {
      assert rest == name;
    }
  }

  lemma LongShape(option: string, name: string, value: string)
    requires option == "--" + (name + "=" + value)
    ensures option == LongOption(name, value)
  {
  }

  /** What an error reveals of an option, exactly: whether it is another option, and nothing of its value. */
  lemma SameNameExactly(a: string, b: string)
    ensures OptionName(a) == OptionName(b) <==> SameOption(a, b)
  {
    LongName(a);
    LongName(b);
    if StartsWith(a, "--") {
      var name := OptionName(a)[2..];
      LongNamed(a, name);
      LongNamed(b, name);
    }
    if name :| IsLong(a, name) && IsLong(b, name) {
      LongNamed(a, name);
      LongNamed(b, name);
    }
  }

  /** Long and short options are told apart by their names. */
  lemma LongName(option: string)
    ensures StartsWith(option, "--") <==> StartsWith(OptionName(option), "--")
    ensures StartsWith(option, "--") ==> OptionName(option) == "--" + OptionName(option)[2..]
    ensures !StartsWith(option, "--") ==> OptionName(option) == Letter(option)
  {
    assert Letter(option) == option[..|Letter(option)|];
    assert StartsWith(Letter(option), "--") ==> StartsWith(option, "--");
  }

  // ---------------------------------------------------------------- what an error reveals

  ghost predicate Increasing(names: seq<string>) {
    forall i, j :: 0 <= i < j < |names| ==> Less(names[i], names[j])
  }

  lemma {:induction false} LessTotal(a: string, b: string)
    ensures a == b || Less(a, b) || Less(b, a)
    ensures !(Less(a, b) && Less(b, a)) && !Less(a, a)
  {
    if a != "" && b != "" && a[0] == b[0] {
      LessTotal(a[1..], b[1..]);
      assert a == [a[0]] + a[1..] && b == [b[0]] + b[1..];
    }
    if a != "" { LessTotal(a[1..], a[1..]); }
  }

  lemma {:induction false} LessTransitive(a: string, b: string, c: string)
    requires Less(a, b) && Less(b, c)
    ensures Less(a, c)
  {
    if a != "" && a[0] == b[0] && b[0] == c[0] { LessTransitive(a[1..], b[1..], c[1..]); }
  }

  lemma {:induction false} InsertKeeps(names: seq<string>, name: string)
    requires Increasing(names)
    ensures Increasing(Insert(names, name))
    ensures forall n :: n in Insert(names, name) <==> n in names || n == name
  {
    if names != [] && name != names[0] {
      LessTotal(name, names[0]);
      var rest := names[1..];
      assert names == [names[0]] + rest;
      if Less(name, names[0]) {
        forall i | 0 <= i < |names| ensures Less(name, names[i]) {
          if i > 0 { LessTransitive(name, names[0], names[i]); }
        }
      } else {
        InsertKeeps(rest, name);
        forall n | n in Insert(rest, name) ensures Less(names[0], n) {
          if n != name { var i :| 0 <= i < |rest| && rest[i] == n; assert names[i + 1] == n; }
        }
      }
    }
  }

  lemma {:induction false} NamesInOrder(options: seq<string>)
    ensures Increasing(OptionNames(options))
    ensures forall n :: n in OptionNames(options) <==> exists i :: 0 <= i < |options| && OptionName(options[i]) == n
  {
    if options != [] {
      var last := |options| - 1;
      var init := options[..last];
      NamesInOrder(init);
      InsertKeeps(OptionNames(init), OptionName(options[last]));
      forall n | n in OptionNames(init) ensures exists i :: 0 <= i < |options| && OptionName(options[i]) == n {
        var i :| 0 <= i < |init| && OptionName(init[i]) == n;
        assert OptionName(options[i]) == n;
      }
      forall i | 0 <= i < last ensures OptionName(options[i]) in OptionNames(init) {
        assert OptionName(init[i]) == OptionName(options[i]);
      }
    }
  }

  /** A set has its elements in order in one way only. */
  lemma {:induction false} OrderUnique(a: seq<string>, b: seq<string>)
    requires Increasing(a) && Increasing(b) && forall n :: n in a <==> n in b
    ensures a == b
  {
    BothEmpty(a, b);
    if a != [] {
      assert a[0] in a && a[0] in b;
      assert b[0] in b && b[0] in a;
      LessTotal(a[0], b[0]);
      assert a[0] == b[0];
      RestInOrder(a);
      RestInOrder(b);
      assert forall n :: n in a[1..] <==> n in b[1..];
      OrderUnique(a[1..], b[1..]);
    }
  }

  lemma BothEmpty(a: seq<string>, b: seq<string>)
    requires forall n :: n in a <==> n in b
    ensures a == [] <==> b == []
  {
    if a != [] { assert a[0] in b; }
    if b != [] { assert b[0] in a; }
  }

  lemma RestInOrder(names: seq<string>)
    requires names != [] && Increasing(names)
    ensures Increasing(names[1..]) && forall n :: n in names[1..] <==> n in names && n != names[0]
  {
    LessTotal(names[0], names[0]);
    assert names == [names[0]] + names[1..];
    forall n | n in names[1..] ensures n != names[0] {
      var i :| 0 <= i < |names| - 1 && names[1..][i] == n;
      assert names[i + 1] == n;
    }
  }

  ghost predicate Occurs(option: string, options: seq<string>) {
    exists j :: 0 <= j < |options| && SameOption(option, options[j])
  }

  /** Every option of `a` is, but for its value, one of `b`. */
  ghost predicate Covered(a: seq<string>, b: seq<string>) {
    forall i :: 0 <= i < |a| ==> Occurs(a[i], b)
  }

  /** The two command lines fail, or pass, alike: the same unknown options but for their values; if there are
      none, as many invalid values, whatever they are; and if there are none, as many stray arguments. */
  ghost predicate FailAlike(a: Parsed, b: Parsed) {
    && Covered(a.unknownOptions, b.unknownOptions) && Covered(b.unknownOptions, a.unknownOptions)
    && (a.unknownOptions == [] ==>
          && |a.errors| == |b.errors|
          && (a.errors == [] ==> |a.extras| == |b.extras|))
  }

  ghost predicate Within(names: seq<string>, others: seq<string>) {
    forall n :: n in names ==> n in others
  }

  lemma CoveredWithin(a: seq<string>, b: seq<string>)
    requires Covered(a, b)
    ensures Within(OptionNames(a), OptionNames(b))
  {
    NamesInOrder(a);
    NamesInOrder(b);
    forall n | n in OptionNames(a) ensures n in OptionNames(b) {
      var i :| 0 <= i < |a| && OptionName(a[i]) == n;
      assert Occurs(a[i], b);
      var j :| 0 <= j < |b| && SameOption(a[i], b[j]);
      SameNameExactly(a[i], b[j]);
    }
  }

  lemma WithinCovered(a: seq<string>, b: seq<string>)
    requires Within(OptionNames(a), OptionNames(b))
    ensures Covered(a, b)
  {
    NamesInOrder(a);
    NamesInOrder(b);
    forall i | 0 <= i < |a| ensures Occurs(a[i], b) {
      assert OptionName(a[i]) in OptionNames(a);
      var j :| 0 <= j < |b| && OptionName(b[j]) == OptionName(a[i]);
      SameNameExactly(a[i], b[j]);
    }
  }

  /** Unknown options that differ at most in their values are reported by the same names, and no others are. */
  lemma SameNamesExactly(a: seq<string>, b: seq<string>)
    ensures OptionNames(a) == OptionNames(b) <==> Covered(a, b) && Covered(b, a)
  {
    if Covered(a, b) && Covered(b, a) {
      CoveredWithin(a, b);
      CoveredWithin(b, a);
      SameElements(a, b);
    } else if OptionNames(a) == OptionNames(b) {
      WithinCovered(a, b);
      WithinCovered(b, a);
    }
  }

  lemma SameElements(a: seq<string>, b: seq<string>)
    requires Within(OptionNames(a), OptionNames(b)) && Within(OptionNames(b), OptionNames(a))
    ensures OptionNames(a) == OptionNames(b)
  {
    NamesInOrder(a);
    NamesInOrder(b);
    OrderUnique(OptionNames(a), OptionNames(b));
  }

  lemma NoNames(options: seq<string>)
    ensures OptionNames(options) == [] <==> options == []
  {
    if options != [] {
      NamesInOrder(options);
      assert OptionName(options[0]) in OptionNames(options);
    }
  }

  /** The verdict before any value is read is the same for exactly the command lines that fail alike. */
  lemma VerdictExactly(a: Parsed, b: Parsed)
    ensures Preflight(a) == Preflight(b) <==> FailAlike(a, b)
  {
    SameNamesExactly(a.unknownOptions, b.unknownOptions);
    NoNames(a.unknownOptions);
    NoNames(b.unknownOptions);
  }

  /** Error redaction, as a statement about two runs: two command lines that fail alike, their values aside, are
      rejected with the same message. */
  lemma ErrorsRedacted(a: Parsed, b: Parsed)
    requires FailAlike(a, b) && Preflight(a).Some?
    ensures Preflight(b).Some? && Message(Preflight(a).value) == Message(Preflight(b).value)
  {
    VerdictExactly(a, b);
  }

  /** And so for the whole resolution: where the command line is at fault, two runs that fail alike return the
      same error, whatever the values, the environments and the dotenv files hold. */
  lemma ResolutionRedacted(a: Parsed, b: Parsed, environment: Values, environment': Values,
                           coerce: Values -> Result<Typed, string>, coerce': Values -> Result<Typed, string>,
                           result: Result<Values, FlagError>, result': Result<Values, FlagError>)
    requires Resolves(a, environment, coerce, result) && Resolves(b, environment', coerce', result')
    requires Preflight(a).Some? && FailAlike(a, b)
    ensures result.Err? && result == result'
  {
    VerdictExactly(a, b);
  }

  // ---------------------------------------------------------------- and what its text reveals

  /** Where the first separator begins, or the length of the text. */
  function Comma(s: string): (n: nat)
    ensures n <= |s| && (n < |s| ==> n + 2 <= |s| && s[n..n + 2] == SEPARATOR)
  {
    if |s| < 2 then |s|
    else if s[..2] == SEPARATOR then 0
    else
      var n := Comma(s[1..]);
      assert n < |s[1..]| ==> s[1..][n..n + 2] == s[n + 1..n + 3];
      n + 1
  }

  /** A text cut at every separator. */
  function Cut(s: string): (pieces: seq<string>)
    ensures pieces != []
  {
    var n := Comma(s);
    if n == |s| then [s] else [s[..n]] + Cut(s[n + 2..])
  }

  /** The names cut at their separators: all that is left of them in a message. */
  function PiecesOf(names: seq<string>): seq<string> {
    if names == [] then [] else Cut(names[0]) + PiecesOf(names[1..])
  }

  predicate NoComma(names: seq<string>) {
    forall n :: n in names ==> Comma(n) == |n|
  }

  /** A separator stands where it was put, whatever comes before and after it. */
  lemma {:induction false} CommaAppend(a: string, b: string)
    ensures Comma(a + SEPARATOR + b) == if Comma(a) < |a| then Comma(a) else |a|
  {
    var s := a + SEPARATOR + b;
    if a == "" {
      assert s[..2] == SEPARATOR;
    } else {
      assert s[1..] == a[1..] + SEPARATOR + b;
      CommaAppend(a[1..], b);
      if |a| >= 2 {
        assert s[..2] == a[..2];
      } else {
        assert s[1] == ',' && a[1..] == "";
        assert s[..2] != SEPARATOR;
      }
    }
  }

  lemma {:induction false} CutAppend(a: string, b: string)
    ensures Cut(a + SEPARATOR + b) == Cut(a) + Cut(b)
    decreases |a|
  {
    var n := Comma(a);
    CommaAppend(a, b);
    if n < |a| {
      CutInside(a, b, n);
      CutAppend(a[n + 2..], b);
      assert [a[..n]] + (Cut(a[n + 2..]) + Cut(b)) == ([a[..n]] + Cut(a[n + 2..])) + Cut(b);
    } else {
      var s := a + SEPARATOR + b;
      assert s[..|a|] == a && s[|a| + 2..] == b;
    }
  }

  lemma CutInside(a: string, b: string, n: nat)
    requires n + 2 <= |a| && Comma(a + SEPARATOR + b) == n
    ensures Cut(a + SEPARATOR + b) == [a[..n]] + Cut(a[n + 2..] + SEPARATOR + b)
  {
    var s := a + SEPARATOR + b;
    assert s[..n] == a[..n] && s[n + 2..] == a[n + 2..] + SEPARATOR + b;
  }

  lemma {:induction false} CutJoin(names: seq<string>)
    requires names != []
    ensures Cut(Join(names)) == PiecesOf(names)
  {
    if |names| == 1 {
      assert PiecesOf(names[1..]) == [] && Cut(names[0]) + [] == Cut(names[0]);
    } else {
      CutAppend(names[0], Join(names[1..]));
      CutJoin(names[1..]);
    }
  }

  lemma {:induction false} JoinCut(s: string)
    ensures Join(Cut(s)) == s
    decreases |s|
  {
    var n := Comma(s);
    if n < |s| {
      JoinCut(s[n + 2..]);
      var rest := Cut(s[n + 2..]);
      assert ([s[..n]] + rest)[1..] == rest;
      assert s == s[..n] + s[n..n + 2] + s[n + 2..];
    }
  }

  /** The joined text gives away the names cut at their separators, and no more: where one name ends and the next
      begins is lost. */
  lemma TextExactly(a: seq<string>, b: seq<string>)
    requires a != [] && b != []
    ensures Join(a) == Join(b) <==> PiecesOf(a) == PiecesOf(b)
  {
    CutJoin(a);
    CutJoin(b);
    JoinCut(Join(a));
    JoinCut(Join(b));
  }

  lemma {:induction false} PiecesPlain(names: seq<string>)
    requires NoComma(names)
    ensures PiecesOf(names) == names
  {
    if names != [] {
      assert names[0] in names && forall n :: n in names[1..] ==> n in names;
      PiecesPlain(names[1..]);
      assert [names[0]] + names[1..] == names;
    }
  }

  lemma DecimalInjective(m: nat, n: nat)
    ensures Decimal(m) == Decimal(n) <==> m == n
  {
    DecimalRoundTrip(m);
    DecimalRoundTrip(n);
  }

  predicate IsVerdict(e: FlagError) {
    e.UnknownOptions? || e.InvalidValues? || e.UnexpectedArguments?
  }

  /** What follows the opening words of a message. */
  function Content(e: FlagError): string
    requires IsVerdict(e)
  {
    match e
    case UnknownOptions(names) => Join(names)
    case InvalidValues(count) => Decimal(count)
    case UnexpectedArguments(count) => Decimal(count)
  }

  lemma Opening(e: FlagError)
    requires IsVerdict(e)
    ensures |Message(e)| >= 3
    ensures e.UnknownOptions? <==> Message(e)[0] == 'u' && Message(e)[2] == 'k'
    ensures e.InvalidValues? <==> Message(e)[0] == 'i'
  {
  }

  lemma SameContent(before: string, a: string, b: string, after: string)
    ensures before + a == before + b <==> a == b
    ensures before + a + after == before + b + after <==> a == b
  {
    assert (before + a)[|before|..] == a && (before + b)[|before|..] == b;
    assert (before + a + after)[..|before + a|] == before + a;
    assert (before + b + after)[..|before + b|] == before + b;
  }

  /** The messages of the checks before any value is read begin differently, and what follows is the text of the
      names or the count. */
  lemma KindsApart(e: FlagError, e': FlagError)
    requires IsVerdict(e) && IsVerdict(e')
    ensures Message(e) == Message(e')
       <==> && (e.UnknownOptions? <==> e'.UnknownOptions?) && (e.InvalidValues? <==> e'.InvalidValues?)
            && Content(e) == Content(e')
  {
    Opening(e);
    Opening(e');
    SameContent("unknown command-line option(s): ", Content(e), Content(e'), "");
    SameContent("invalid command-line value(s): ", Content(e), Content(e'), " error(s)");
    SameContent("unexpected positional argument(s): ", Content(e), Content(e'), "");
  }

  /** Are there names to report, if names are reported? */
  predicate Reports(e: FlagError) {
    IsVerdict(e) && (e.UnknownOptions? ==> e.names != [])
  }

  /** Two messages are the same text if and only if both report unknown options whose names agree when cut at
      their separators, or they report the same count of the same kind. */
  lemma MessageExactly(e: FlagError, e': FlagError)
    requires Reports(e) && Reports(e')
    ensures Message(e) == Message(e')
       <==> if e.UnknownOptions? && e'.UnknownOptions? then PiecesOf(e.names) == PiecesOf(e'.names) else e == e'
  {
    KindsApart(e, e');
    match (e, e')
    case (UnknownOptions(names), UnknownOptions(names')) => TextExactly(names, names');
    case (InvalidValues(m), InvalidValues(n)) => DecimalInjective(m, n);
    case (UnexpectedArguments(m), UnexpectedArguments(n)) => DecimalInjective(m, n);
    case _ =>
  }

  lemma PreflightReports(parsed: Parsed)
    requires Preflight(parsed).Some?
    ensures Reports(Preflight(parsed).value)
    ensures Preflight(parsed).value.UnknownOptions? ==>
              Preflight(parsed).value.names == OptionNames(parsed.unknownOptions)
  {
    NoNames(parsed.unknownOptions);
  }

  lemma PlainMessage(e: FlagError, e': FlagError)
    requires Reports(e) && Reports(e')
    requires (e.UnknownOptions? ==> NoComma(e.names)) && (e'.UnknownOptions? ==> NoComma(e'.names))
    ensures Message(e) == Message(e') <==> e == e'
  {
    MessageExactly(e, e');
    if e.UnknownOptions? { PiecesPlain(e.names); }
    if e'.UnknownOptions? { PiecesPlain(e'.names); }
  }

  /** The message of each verdict: unknown options by name, and only then invalid values, and only then stray
      arguments, both by their number alone. */
  lemma VerdictText(parsed: Parsed)
    ensures Preflight(parsed).None? <==> parsed.unknownOptions == [] && parsed.errors == [] && parsed.extras == []
    ensures Preflight(parsed).Some? ==>
              Message(Preflight(parsed).value)
              == if parsed.unknownOptions != [] then
                   "unknown command-line option(s): " + Join(OptionNames(parsed.unknownOptions))
                 else if parsed.errors != [] then
                   "invalid command-line value(s): " + Decimal(|parsed.errors|) + " error(s)"
                 else "unexpected positional argument(s): " + Decimal(|parsed.extras|)
  {
  }

  /** Where no reported name contains the separator, a message reveals just this: two command lines are rejected
      with the same text if and only if they fail alike. */
  lemma MessageReveals(a: Parsed, b: Parsed)
    requires Preflight(a).Some? && Preflight(b).Some?
    requires NoComma(OptionNames(a.unknownOptions)) && NoComma(OptionNames(b.unknownOptions))
    ensures Message(Preflight(a).value) == Message(Preflight(b).value) <==> FailAlike(a, b)
  {
    PreflightReports(a);
    PreflightReports(b);
    PlainMessage(Preflight(a).value, Preflight(b).value);
    VerdictExactly(a, b);
  }

  lemma LongAlone(name: string)
    requires '=' !in name
    ensures OptionName("--" + name) == "--" + name
  {
    LongKeepsName("--" + name, name);
  }

  lemma OneName(option: string)
    ensures OptionNames([option]) == [OptionName(option)]
  {
    assert [option][..0] == [];
  }

  /** With the separator in a name the text no longer tells: one unknown option called `--a, --b` is reported like
      the two options `--a` and `--b`. */
  lemma CommaConfuses(a: Parsed, b: Parsed)
    requires a.unknownOptions == ["--a, --b"] && b.unknownOptions == ["--a", "--b"]
    ensures Preflight(a).Some? && Preflight(b).Some?
    ensures Message(Preflight(a).value) == Message(Preflight(b).value) && !FailAlike(a, b)
  {
    TwoNames();
    LongAlone("a, --b");
    OneName("--a, --b");
    assert ["--a", "--b"][1..] == ["--b"];
    assert Join(["--a", "--b"]) == "--a" + SEPARATOR + "--b" == "--a, --b";
    VerdictExactly(a, b);
  }

  lemma TwoNames()
    ensures OptionNames(["--a", "--b"]) == ["--a", "--b"]
  {
    var options, none: seq<string> := ["--a", "--b"], [];
    LongAlone("a");
    LongAlone("b");
    OneName("--a");
    assert "--" + "a" == "--a" && "--" + "b" == "--b";
    assert options[..|options| - 1] == ["--a"];
    assert OptionNames(options) == Insert(["--a"], "--b");
    assert "--b"[1..] == "-b" && "--a"[1..] == "-a" && "-b"[1..] == "b" && "-a"[1..] == "a";
    assert !Less("b", "a") && !Less("-b", "-a") && !Less("--b", "--a");
    assert ["--a"][1..] == none && Insert(none, "--b") == ["--b"];
  }
}
