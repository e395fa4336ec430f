/**
 * `MultiIssueConfigurationError`, the exception that collects configuration problems.
 * Its implementation file is not part of this model; its behaviour is the one its
 * unit tests (tests/testExceptions.py) pin down: problems are kept in the order they were
 * added, and the message depends on how many there are.
 */
module Exceptions {
  import opened Wrappers

  const Unspecified := "Unspecified configuration problems encountered"
  const Generic := "Multiple configuration problems encountered"

  /**
   * `str(err)`: with no problem the unspecified message, with one problem that problem's text,
   * with two or more the summary given at construction, or the generic message without one.
   */
  function Message(summary: Option<string>, problems: seq<string>): (m: string)
    ensures problems == [] ==> m == Unspecified
    ensures |problems| == 1 ==> m == problems[0]
    ensures |problems| >= 2 && summary.Some? ==> m == summary.value
    ensures |problems| >= 2 && summary.None? ==> m == Generic
  {
    if |problems| == 0 then Unspecified
    else if |problems| == 1 then problems[0]
    else if summary.Some? then summary.value
    else Generic
  }

  /** The summary never shows before the second problem. */
  lemma SummaryOnlyFromSecondProblem(a: Option<string>, b: Option<string>, problems: seq<string>)
    requires |problems| < 2
    ensures Message(a, problems) == Message(b, problems)
  {
  }

  /** A `ConfigurationError` with its message. */
  datatype ConfigurationError = ConfigurationError(msg: string)

  class MultiIssueConfigurationError {
    const summary: Option<string>
    var problems: seq<string>

    /** `MultiIssueConfigurationError(msg, problem)`: holds `problem` alone when one is given. */
    constructor (msg: Option<string>, problem: Option<string>)
      ensures summary == msg
      ensures problems == (if problem.Some? then [problem.value] else [])
    {
      summary := msg;
      problems := if problem.Some? then [problem.value] else [];
    }

    /** `addProblem`: appends at the end, keeping the earlier problems in order. */
    method AddProblem(problem: string)
      modifies this
      ensures problems == old(problems) + [problem]
    {
      problems := problems + [problem];
    }

    function HasProblems(): (r: bool)
      reads this
      ensures r <==> |problems| > 0
    {
      |problems| > 0
    }

    /** `getProblems`: the problems in the order they were added; non-empty exactly when `hasProblems`. */
    function GetProblems(): (r: seq<string>)
      reads this
      ensures r == problems
      ensures r != [] <==> HasProblems()
    {
      problems
    }

    /** `str(err)`: the message `Message` selects for the problems held so far. */
    function Str(): (m: string)
      reads this
      ensures !HasProblems() ==> m == Unspecified
      ensures |problems| == 1 ==> m == GetProblems()[0]
      ensures |problems| >= 2 ==> m == (if summary.Some? then summary.value else Generic)
    {
      Message(summary, problems)
    }
  }

  /** testNoProb: a fresh error has no problems and the unspecified message. */
  method NoProblem() returns (has: bool, text: string, count: nat)
    ensures !has && text == Unspecified && count == 0
  {
    var err := new MultiIssueConfigurationError(None, None);
    has := err.HasProblems();
    text := err.Str();
    count := |err.GetProblems()|;
  }

  /** testOneProb: built with one problem, the message is that problem. */
  method OneProblem() returns (text: string, probs: seq<string>)
    ensures text == "first problem" && probs == ["first problem"]
  {
    var err := new MultiIssueConfigurationError(None, Some("first problem"));
    text := err.Str();
    probs := err.GetProblems();
  }

  /** testTwoProbs: a second problem switches to the generic message and keeps insertion order. */
  method TwoProblems() returns (first: string, second: string, probs: seq<string>)
    ensures first == "first problem" && second == Generic
    ensures probs == ["first problem", "second problem"]
  {
    var err := new MultiIssueConfigurationError(None, Some("first problem"));
    first := err.Str();
    err.AddProblem("second problem");
    second := err.Str();
    probs := err.GetProblems();
  }

  /** testGenericMsg: with a summary, the message goes unspecified, then the problem, then the summary. */
  method SummaryMessage() returns (none: string, one: string, two: string)
    ensures none == Unspecified && one == "first problem"
    ensures two == "problems encountered while checking configuration"
  {
    var err := new MultiIssueConfigurationError(Some("problems encountered while checking configuration"), None);
    none := err.Str();
    err.AddProblem("first problem");
    one := err.Str();
    err.AddProblem("2nd problem");
    two := err.Str();
  }
}
