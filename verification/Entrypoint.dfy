/** The dotenv loop of the container entrypoint, run by a POSIX shell. */
module Entrypoint {
  import opened Prelude
  import opened Text

  // ---------------------------------------------------------------- `IFS='=' read -r key value`

  /** Field splitting at `=` (section 2.6.5 of XCU): each `=` ends a field, and only a non-empty remainder after
      the last one makes a further field. */
  function Fields(line: string): seq<string> {
    if line == "" then []
    else
      var at := Find(line, '=');
      if at == |line| then [line] else [line[..at]] + Fields(line[at + 1..])
  }

  /** What `read` assigns to its two variables: the first field, and the rest.  With at most two fields the
      second is taken without the `=` that ends it; with more, the rest of the line is taken as it stands. */
  function ReadLine(line: string): (string, string) {
    var fields := Fields(line);
    if |fields| == 0 then ("", "")
    else if |fields| == 1 then (fields[0], "")
    else if |fields| == 2 then (fields[0], fields[1])
    else (fields[0], line[|fields[0]| + 1..])
  }

  /** A value whose only `=` is its last character. */
  predicate EndsInLoneEquals(value: string) {
    value != "" && value[|value| - 1] == '=' && '=' !in value[..|value| - 1]
  }

  lemma {:induction false} FieldCount(value: string)
    ensures value == "" ==> |Fields(value)| == 0
    ensures value != "" && '=' !in value ==> Fields(value) == [value]
    ensures EndsInLoneEquals(value) ==> Fields(value) == [value[..|value| - 1]]
    ensures '=' in value && !EndsInLoneEquals(value) ==> |Fields(value)| >= 2
  {
    if value != "" {
      var at := Find(value, '=');
      if at < |value| {
        assert value[at] in value;
        var rest := value[at + 1..];
        if rest == "" {
          assert at == |value| - 1 && Fields(value) == [value[..at]];
        } else {
          FieldCount(rest);
          assert |Fields(rest)| >= 1 by { if Find(rest, '=') == |rest| {} else {} }
          assert at < |value| - 1 && value[at] == value[..|value| - 1][at] == '=';
        }
      } else {
        assert value[..at] == value && value[|value| - 1] in value;
      }
    }
  }

  /** Which values survive the loop.  Splitting `key=value` gives the key and the value back exactly unless the
      value holds a single `=` and that at its end, as padded base64 often does; then that `=` is lost. */
  lemma ReadLineExact(key: string, value: string)
    requires '=' !in key
    ensures ReadLine(key + "=" + value) == (key, if EndsInLoneEquals(value) then value[..|value| - 1] else value)
    ensures ReadLine(key + "=" + value) == (key, value) <==> !EndsInLoneEquals(value)
  {
    var line := key + "=" + value;
    var at := Find(line, '=');
    assert line == key + ['='] + value && line[|key|] == '=';
    assert line == line[..at] + ['='] + line[at + 1..];
    SplitUnique(key, value, line[..at], line[at + 1..], '=');
    assert Fields(line) == [key] + Fields(value);
    FieldCount(value);
  }

  /** The claim that splitting on the first `=` keeps base64 intact fails on one padded value. */
  lemma PaddingLost()
    ensures ReadLine("TOKEN=YWI=") == ("TOKEN", "YWI")
  {
    var key, value := "TOKEN", "YWI=";
    assert "TOKEN=YWI=" == key + "=" + value;
    assert value[..3] == "YWI";
    ReadLineExact(key, value);
  }

  // ---------------------------------------------------------------- the loop

  predicate IsNameChar(c: char) {
    'A' <= c <= 'Z' || 'a' <= c <= 'z' || '0' <= c <= '9' || c == '_'
  }

  /** The names the two `case` patterns let through. */
  predicate ValidName(key: string) {
    && key != "" && key[0] != '#' && !StartsWith(key, "sops_")
    && (forall c :: c in key ==> IsNameChar(c)) && !('0' <= key[0] <= '9')
  }

  /** They are the names of portable shell variables, but for those of the sops metadata. */
  lemma ValidNameExact(key: string)
    ensures ValidName(key)
       <==> && key != "" && !("sops_" <= key)
            && forall i :: 0 <= i < |key| ==>
                 || 'A' <= key[i] <= 'Z' || 'a' <= key[i] <= 'z' || key[i] == '_' || (i > 0 && '0' <= key[i] <= '9')
  {
    if ValidName(key) {
      forall i | 0 <= i < |key| ensures IsNameChar(key[i]) { assert key[i] in key; }
    }
  }

  /** The variables the script itself assigns around the loop. */
  predicate Reserved(name: string) {
    name == "key" || name == "value" || name == "secrets"
  }

  /** The first line that sets a name, if any. */
  function FirstValue(lines: seq<string>, name: string): Option<string> {
    if lines == [] then None
    else
      var (key, value) := ReadLine(lines[0]);
      if key == name && ValidName(key) then Some(value) else FirstValue(lines[1..], name)
  }

  lemma {:induction false} FirstValueSnoc(lines: seq<string>, line: string, name: string)
    ensures FirstValue(lines + [line], name)
         == if FirstValue(lines, name).Some? then FirstValue(lines, name)
            else FirstValue([line], name)
  {
    if lines == [] {
      assert [] + [line] == [line];
    } else {
      assert (lines + [line])[1..] == lines[1..] + [line];
      FirstValueSnoc(lines[1..], line, name);
    }
  }

  type Variables = map<string, string>

  /** `vars` and `exported` are the first-wins merge of `lines` into `vars0` and `exported0`: a variable that was
      set keeps its value, even an empty one, and its export status; otherwise the first valid line for the name
      sets and exports it; and nothing else changes.  The script's own names are never taken from the file. */
  ghost predicate Merged(vars: Variables, exported: set<string>, vars0: Variables, exported0: set<string>,
                         lines: seq<string>)
  {
    && (forall name :: !Reserved(name) ==>
          Lookup(vars, name) == if name in vars0 then Some(vars0[name]) else FirstValue(lines, name))
    && (forall name :: !Reserved(name) ==>
          (name in exported <==> name in exported0 || (name !in vars0 && FirstValue(lines, name).Some?)))
    && (forall name :: Reserved(name) ==> (name in exported ==> name in exported0))
  }

  /** One line: a valid name that is not set yet is set and exported. */
  lemma MergedStep(vars: Variables, exported: set<string>, vars0: Variables, exported0: set<string>,
                   lines: seq<string>, i: nat, vars': Variables, exported': set<string>)
    requires i < |lines| && Merged(vars, exported, vars0, exported0, lines[..i])
    requires var (key, value) := ReadLine(lines[i]);
             var read := vars["key" := key]["value" := value];
             && "secrets" in vars
             && if ValidName(key) && key !in read
                then vars' == read[key := value] && exported' == exported + {key}
                else vars' == read && exported' == exported
    ensures Merged(vars', exported', vars0, exported0, lines[..i + 1])
  {
    var (key, value) := ReadLine(lines[i]);
    assert lines[..i + 1] == lines[..i] + [lines[i]];
    forall name ensures FirstValue(lines[..i + 1], name)
                     == if FirstValue(lines[..i], name).Some? then FirstValue(lines[..i], name)
                        else if key == name && ValidName(key) then Some(value) else None
    {
      FirstValueSnoc(lines[..i], lines[i], name);
      assert [lines[i]][1..] == [] && FirstValue([], name) == None;
    }
    forall name | !Reserved(name)
      ensures Lookup(vars', name) == if name in vars0 then Some(vars0[name]) else FirstValue(lines[..i + 1], name)
      ensures name in exported' <==> name in exported0 || (name !in vars0 && FirstValue(lines[..i + 1], name).Some?)
    {
      assert Lookup(vars, name) == if name in vars0 then Some(vars0[name]) else FirstValue(lines[..i], name);
    }
  }

  /** The value a line `key=value` gives a name that no earlier line set: the value itself, but for a lone final `=`. */
  lemma {:induction false} FirstLineWins(lines: seq<string>, i: nat, key: string, value: string)
    requires ValidName(key) && i < |lines| && lines[i] == key + "=" + value
    requires forall k :: 0 <= k < i ==> ReadLine(lines[k]).0 != key
    ensures FirstValue(lines, key) == Some(if EndsInLoneEquals(value) then value[..|value| - 1] else value)
  {
    if i == 0 {
      assert '=' !in key;
      ReadLineExact(key, value);
    } else {
      forall k | 0 <= k < i - 1 ensures ReadLine(lines[1..][k]).0 != key {
        assert lines[1..][k] == lines[k + 1];
      }
      assert ReadLine(lines[0]).0 != key;
      FirstLineWins(lines[1..], i - 1, key, value);
    }
  }

  /** The shell: every variable that is set, and which of them are exported. */
  class Shell {
    var vars: Variables
    var exported: set<string>

    constructor (vars: Variables, exported: set<string>)
      ensures this.vars == vars && this.exported == exported
    {
      this.vars := vars;
      this.exported := exported;
    }

    /** The loop over the decrypted file, from the assignment of `secrets` to its `unset`.  `read` fails at the
        end of the input and leaves both its variables empty. */
    method LoadSecrets(lines: seq<string>)
      modifies this
      ensures Merged(vars, exported, old(vars), old(exported), lines)
      ensures Lookup(vars, "key") == Some("") && Lookup(vars, "value") == Some("") && Lookup(vars, "secrets") == None
      ensures "secrets" !in exported
    {
      ghost var vars0, exported0 := vars, exported;
      vars := vars["secrets" := ""];
      var i := 0;
      while i < |lines|
        invariant i <= |lines|
        invariant "secrets" in vars
        invariant Merged(vars, exported, vars0, exported0, lines[..i])
      {
        ghost var before, exportedBefore := vars, exported;
        var (key, value) := ReadLine(lines[i]);
        vars := vars["key" := key]["value" := value];
        if key == "" || key[0] == '#' || StartsWith(key, "sops_") {
          // a blank line, a comment, or metadata
        } else if (exists c :: c in key && !IsNameChar(c)) || '0' <= key[0] <= '9' {
          // not a variable name
        } else if key !in vars {
          vars := vars[key := value];
          exported := exported + {key};
        }
        MergedStep(before, exportedBefore, vars0, exported0, lines, i, vars, exported);
        i := i + 1;
      }
      assert lines[..i] == lines;
      vars := vars["key" := ""]["value" := ""];
      vars := vars - {"secrets"};
      exported := exported - {"secrets"};
    }
  }
}
