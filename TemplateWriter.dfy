/**
 * Writing a file from a template: every `$name` in a line becomes the value given for
 * `name`, first for the writer's own values (the local host name), then for the caller's
 * pairs. Files are streams of `readline()` results, where "" is the end of the file.
 */
module TemplateWriter {
  import opened PyText

  const HostnameName := "ORCA_LOCAL_HOSTNAME"

  /** The placeholder for `name`. */
  function Key(name: string): (r: string)
    ensures |r| == |name| + 1 && r[0] == '$' && r[1..] == name
  {
    "$" + name
  }

  /** The line after replacing, pair by pair in order, every `$name` by its value. */
  function ApplyPairs(line: string, pairs: seq<(string, string)>): string {
    if pairs == [] then line
    else ReplaceAll(ApplyPairs(line, pairs[..|pairs| - 1]), Key(pairs[|pairs| - 1].0), pairs[|pairs| - 1].1)
  }

  /** The lines of a template: the `readline()` results before the first end of file, unchanged. */
  function TemplateLines(stream: seq<string>): (r: seq<string>)
    ensures |r| <= |stream| && (|r| == |stream| || stream[|r|] == "")
  {
    if stream == [] || stream[0] == "" then [] else [stream[0]] + TemplateLines(stream[1..])
  }

  /** Line `k` of a template is the `k`-th `readline()` result, and is not the end of the file. */
  lemma {:induction false} TemplateLinesAt(stream: seq<string>, k: nat)
    requires k < |TemplateLines(stream)|
    ensures stream[k] != "" && TemplateLines(stream)[k] == stream[k]
  {
    if k > 0 {
      TemplateLinesAt(stream[1..], k - 1);
    }
  }

  /** Without a `$`, a line contains no placeholder. */
  lemma NoDollarNoKey(s: string, name: string)
    requires '$' !in s
    ensures forall i :: 0 <= i <= |s| - |Key(name)| ==> !OccursAt(s, Key(name), i)
  {
    forall i | 0 <= i <= |s| - |Key(name)| ensures !OccursAt(s, Key(name), i) {
      assert s[i] in s;
    }
  }

  /** Pairs leave a line without `$` as it is. */
  lemma {:induction false} ApplyPairsNoDollar(line: string, pairs: seq<(string, string)>)
    requires '$' !in line
    ensures ApplyPairs(line, pairs) == line
  {
    if pairs != [] {
      ApplyPairsNoDollar(line, pairs[..|pairs| - 1]);
      NoDollarNoKey(line, pairs[|pairs| - 1].0);
      ReplaceAbsent(line, Key(pairs[|pairs| - 1].0), pairs[|pairs| - 1].1);
    }
  }

  /** A `$name` that starts a longer token such as `$nameX` is replaced too, leaving the rest of the token. */
  lemma PrefixTokenReplaced(name: string, value: string, rest: string)
    requires '$' !in rest
    ensures ReplaceAll(Key(name) + rest, Key(name), value) == value + rest
  {
    var s := Key(name) + rest;
    assert s[..|Key(name)|] == Key(name);
    assert s[|Key(name)|..] == rest;
    NoDollarNoKey(rest, name);
    ReplaceAbsent(rest, Key(name), value);
  }

  /** The replacement loop over one list of pairs. */
  method ReplacePairs(line: string, pairs: seq<(string, string)>) returns (r: string)
    ensures r == ApplyPairs(line, pairs)
  {
    r := line;
    var j := 0;
    while j < |pairs|
      invariant 0 <= j <= |pairs|
      invariant r == ApplyPairs(line, pairs[..j])
    {
      assert pairs[..j + 1][..j] == pairs[..j];
      r := ReplaceAll(r, Key(pairs[j].0), pairs[j].1);
      j := j + 1;
    }
    assert pairs[..j] == pairs;
  }

  class TemplateWriter {
    /** The writer's own values, in the dict's order: only the local host name. */
    const orcaValues: seq<(string, string)>

    /** The host name is a parameter: `socket.gethostname()` is outside the model. */
    constructor (hostname: string)
      ensures orcaValues == [(HostnameName, hostname)]
    {
      orcaValues := [(HostnameName, hostname)];
    }

    /** One template line rewritten: the writer's own values first, then the caller's pairs in order. */
    function Substitute(line: string, pairs: seq<(string, string)>): string {
      ApplyPairs(ApplyPairs(line, orcaValues), pairs)
    }

    /** The rewritten template: one output line per template line. */
    function Rewritten(stream: seq<string>, pairs: seq<(string, string)>): seq<string> {
      if stream == [] || stream[0] == "" then [] else [Substitute(stream[0], pairs)] + Rewritten(stream[1..], pairs)
    }

    /** Exactly one line is written per template line, in order, each the substituted template line. */
    lemma {:induction false} RewrittenLineByLine(stream: seq<string>, pairs: seq<(string, string)>)
      ensures |Rewritten(stream, pairs)| == |TemplateLines(stream)|
      ensures forall k :: 0 <= k < |TemplateLines(stream)| ==>
                Rewritten(stream, pairs)[k] == Substitute(TemplateLines(stream)[k], pairs)
    {
      if stream != [] && stream[0] != "" {
        RewrittenLineByLine(stream[1..], pairs);
      }
    }

    /** A line without `$` is written unchanged. */
    lemma NoDollarUnchanged(line: string, pairs: seq<(string, string)>)
      requires '$' !in line
      ensures Substitute(line, pairs) == line
    {
      ApplyPairsNoDollar(line, orcaValues);
      ApplyPairsNoDollar(line, pairs);
    }

    /** The host name goes in before any pair: a pair named `ORCA` cannot capture `$ORCA_LOCAL_HOSTNAME`. */
    lemma HostnameReplacedFirst(value: string)
      requires |orcaValues| == 1 && orcaValues[0].0 == HostnameName && '$' !in orcaValues[0].1
      ensures Substitute("$ORCA_LOCAL_HOSTNAME", [("ORCA", value)]) == orcaValues[0].1
    {
      var hostname := orcaValues[0].1;
      assert orcaValues[..0] == [];
      PrefixTokenReplaced(HostnameName, hostname, "");
      assert Key(HostnameName) + "" == "$ORCA_LOCAL_HOSTNAME";
      assert hostname + "" == hostname;
      assert ApplyPairs("$ORCA_LOCAL_HOSTNAME", orcaValues) == hostname;
      ApplyPairsNoDollar(hostname, [("ORCA", value)]);
    }

    /** `rewrite`: reads the template up to the end of the file and writes each line substituted. */
    method Rewrite(input: seq<string>, pairs: seq<(string, string)>) returns (output: seq<string>)
      ensures output == Rewritten(input, pairs)
    {
      output := [];
      var i := 0;
      while true
        invariant 0 <= i <= |input|
        invariant Rewritten(input, pairs) == output + Rewritten(input[i..], pairs)
        decreases |input| - i
      {
        var line := if i < |input| then input[i] else "";
        if |line| == 0 {
          break;
        }
        assert input[i..][1..] == input[i + 1..];
        line := ReplacePairs(line, orcaValues);
        line := ReplacePairs(line, pairs);
        output := output + [line];
        i := i + 1;
      }
    }
  }
}
