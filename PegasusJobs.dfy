/**
 * How orca reads the output of `pegasus-plan ... --submit`: the HTCondor cluster id
 * of the submitted workflow and the `pegasus-status -l` and `pegasus-remove` command
 * lines Pegasus suggests. The polling helpers of the Pegasus module are the HTCondor ones
 * (`CondorJobs.WaitForJobToRun`, `CondorJobs.WaitForAllJobsToRun`, `CondorJobs.IsJobAlive`).
 */
module PegasusJobs {
  import opened Wrappers
  import opened PyText
  import opened Regex
  import opened CondorJobs

  const StatusMarker := "pegasus-status -l "
  const RemoveMarker := "pegasus-remove "

  /**
   * One attempt of `marker((\W|\w)+)` at `p`: `(\W|\w)` matches every character, so the
   * first group is all the rest of the line (at least one character) and the second group,
   * the last repetition, is its final character. `findall` returns the two as a pair.
   */
  function TailAfter(line: string, p: nat, marker: string): (r: Option<(string, char)>)
    ensures r.Some? <==> OccursAt(line, marker, p) && p + |marker| < |line|
    ensures r.Some? ==> r.value.0 == line[p + |marker|..] && r.value.1 == line[|line| - 1]
  {
    if OccursAt(line, marker, p) && p + |marker| < |line| then
      Some((line[p + |marker|..], line[|line| - 1]))
    else
      None
  }

  function StatusAt(line: string, p: nat): Option<(string, char)> {
    TailAfter(line, p, StatusMarker)
  }

  function RemoveAt(line: string, p: nat): Option<(string, char)> {
    TailAfter(line, p, RemoveMarker)
  }

  /** `.*1 job\(s\) submitted to cluster (\d+).` */
  function DaxCluster(line: string): Option<string> {
    Greedy(line, ClusterAt)
  }

  /** `.*pegasus-status -l ((\W|\w)+)` */
  function DaxStatus(line: string): Option<(string, char)> {
    Greedy(line, StatusAt)
  }

  /** `.*pegasus-remove ((\W|\w)+)` */
  function DaxRemove(line: string): Option<(string, char)> {
    Greedy(line, RemoveAt)
  }

  /** Which of the three patterns a line is taken for: the cluster pattern first, then status, then remove. */
  datatype LineKind = ClusterLine(id: string) | StatusLine(status: (string, char)) | RemoveLine(remove: (string, char)) | OtherLine

  function Kind(line: string): (r: LineKind)
    ensures r.ClusterLine? <==> DaxCluster(line).Some?
    ensures r.StatusLine? <==> DaxCluster(line).None? && DaxStatus(line).Some?
    ensures r.RemoveLine? <==> DaxCluster(line).None? && DaxStatus(line).None? && DaxRemove(line).Some?
  {
    if DaxCluster(line).Some? then ClusterLine(DaxCluster(line).value)
    else if DaxStatus(line).Some? then StatusLine(DaxStatus(line).value)
    else if DaxRemove(line).Some? then RemoveLine(DaxRemove(line).value)
    else OtherLine
  }

  function ClusterOf(line: string): Option<string> {
    if Kind(line).ClusterLine? then Some(Kind(line).id) else None
  }

  function StatusOf(line: string): Option<(string, char)> {
    if Kind(line).StatusLine? then Some(Kind(line).status) else None
  }

  function RemoveOf(line: string): Option<(string, char)> {
    if Kind(line).RemoveLine? then Some(Kind(line).remove) else None
  }

  /** What the last of `lines` for which `f` succeeds yields. */
  function LastSome<T>(lines: seq<string>, f: string -> Option<T>): (r: Option<T>)
    ensures r.Some? ==> exists k :: 0 <= k < |lines| && f(lines[k]) == r &&
                          forall k' :: k < k' < |lines| ==> f(lines[k']).None?
    ensures r.None? <==> forall k :: 0 <= k < |lines| ==> f(lines[k]).None?
  {
    if lines == [] then None
    else if f(lines[|lines| - 1]).Some? then f(lines[|lines| - 1])
    else
      var r := LastSome(lines[..|lines| - 1], f);
      assert forall k :: 0 <= k < |lines| - 1 ==> lines[..|lines| - 1][k] == lines[k];
      r
  }

  /** The triple `pegasusSubmitDax` returns; None stands for the initial `-1`, `None`, `None`. */
  datatype DaxIds = DaxIds(clusterId: Option<string>, statusInfo: Option<(string, char)>, removeInfo: Option<(string, char)>)

  /** Each field holds what the last line of its kind gave. */
  function DaxOutcome(lines: seq<string>): DaxIds {
    DaxIds(LastSome(lines, ClusterOf), LastSome(lines, StatusOf), LastSome(lines, RemoveOf))
  }

  /** The effect of one output line on the triple. */
  function Overwrite(ids: DaxIds, line: string): DaxIds {
    match Kind(line)
    case ClusterLine(id) => ids.(clusterId := Some(id))
    case StatusLine(status) => ids.(statusInfo := Some(status))
    case RemoveLine(remove) => ids.(removeInfo := Some(remove))
    case OtherLine => ids
  }

  lemma DaxOutcomeStep(lines: seq<string>, k: nat)
    requires k < |lines|
    ensures DaxOutcome(lines[..k + 1]) == Overwrite(DaxOutcome(lines[..k]), lines[k])
  {
    assert lines[..k + 1][..k] == lines[..k];
  }

  /** `pegasusSubmitDax`: read and strip every output line, then let each matching line overwrite its field. */
  method PegasusSubmitDax(stream: seq<string>) returns (ids: DaxIds)
    ensures ids == DaxOutcome(OutputLines(stream))
  {
    var output := ReadOutput(stream);
    var condorClusterId: Option<string> := None;
    var statusInfo: Option<(string, char)> := None;
    var removeInfo: Option<(string, char)> := None;
    var k := 0;
    while k < |output|
      invariant 0 <= k <= |output|
      invariant DaxIds(condorClusterId, statusInfo, removeInfo) == DaxOutcome(output[..k])
    {
      DaxOutcomeStep(output, k);
      var line := output[k];
      var cluster := DaxCluster(line);
      if cluster.Some? {
        condorClusterId := cluster;
        k := k + 1;
        continue;
      }
      var status := DaxStatus(line);
      if status.Some? {
        statusInfo := status;
        k := k + 1;
        continue;
      }
      var remove := DaxRemove(line);
      if remove.Some? {
        removeInfo := remove;
      }
      k := k + 1;
    }
    assert output[..k] == output;
    return DaxIds(condorClusterId, statusInfo, removeInfo);
  }

  /** With no matching line, the result is `(-1, None, None)`; any matching line sets its field. */
  lemma NoMatchGivesDefaults(lines: seq<string>)
    ensures DaxOutcome(lines) == DaxIds(None, None, None) <==> forall k :: 0 <= k < |lines| ==> Kind(lines[k]).OtherLine?
  {
    if DaxOutcome(lines) == DaxIds(None, None, None) {
      forall k | 0 <= k < |lines| ensures Kind(lines[k]).OtherLine? {
        assert ClusterOf(lines[k]).None? && StatusOf(lines[k]).None? && RemoveOf(lines[k]).None?;
      }
    } else {
      var d := DaxOutcome(lines);
      if d.clusterId.Some? {
        var k :| 0 <= k < |lines| && ClusterOf(lines[k]) == d.clusterId;
      } else if d.statusInfo.Some? {
        var k :| 0 <= k < |lines| && StatusOf(lines[k]) == d.statusInfo;
      } else {
        var k :| 0 <= k < |lines| && RemoveOf(lines[k]) == d.removeInfo;
      }
    }
  }

  /**
   * On a line without a newline, the status (or remove) information is the non-empty rest of
   * the line after the last marker that is followed by something, paired with the line's last character.
   */
  lemma TailIsRestAfterLastMarker(line: string, marker: string, at: (string, nat) -> Option<(string, char)>)
    requires forall k :: 0 <= k < |line| ==> line[k] != '\n'
    requires forall p :: at(line, p) == TailAfter(line, p, marker)
    ensures Greedy(line, at).Some? ==>
              exists p :: 0 <= p <= |line| && OccursAt(line, marker, p) && p + |marker| < |line| &&
                          Greedy(line, at) == Some((line[p + |marker|..], line[|line| - 1])) &&
                          forall p' :: p < p' <= |line| ==> !(OccursAt(line, marker, p') && p' + |marker| < |line|)
    ensures Greedy(line, at).None? <==>
              forall p :: 0 <= p <= |line| ==> !(OccursAt(line, marker, p) && p + |marker| < |line|)
  {
    GreedyIsLastHit(line, at);
    var r := LastHit(line, 0, |line|, at);
    if r.Some? {
      var q :| 0 <= q <= |line| && at(line, q) == r && forall q' :: q < q' <= |line| ==> at(line, q').None?;
      assert at(line, q) == TailAfter(line, q, marker);
      forall p' | q < p' <= |line| ensures !(OccursAt(line, marker, p') && p' + |marker| < |line|) {
        assert at(line, p') == TailAfter(line, p', marker);
      }
    } else {
      forall p | 0 <= p <= |line| ensures !(OccursAt(line, marker, p) && p + |marker| < |line|) {
        assert at(line, p) == TailAfter(line, p, marker);
      }
    }
    if forall p :: 0 <= p <= |line| ==> !(OccursAt(line, marker, p) && p + |marker| < |line|) {
      forall q | 0 <= q <= |line| ensures at(line, q).None? {
        assert at(line, q) == TailAfter(line, q, marker);
      }
    }
  }

  lemma StatusIsRestAfterLastMarker(line: string)
    requires forall k :: 0 <= k < |line| ==> line[k] != '\n'
    ensures DaxStatus(line).Some? ==>
              exists p :: 0 <= p <= |line| && OccursAt(line, StatusMarker, p) && p + |StatusMarker| < |line| &&
                          DaxStatus(line).value.0 == line[p + |StatusMarker|..] &&
                          forall p' :: p < p' <= |line| ==> !(OccursAt(line, StatusMarker, p') && p' + |StatusMarker| < |line|)
    ensures DaxStatus(line).None? <==>
              forall p :: 0 <= p <= |line| ==> !(OccursAt(line, StatusMarker, p) && p + |StatusMarker| < |line|)
  {
    TailIsRestAfterLastMarker(line, StatusMarker, StatusAt);
  }

  lemma RemoveIsRestAfterLastMarker(line: string)
    requires forall k :: 0 <= k < |line| ==> line[k] != '\n'
    ensures DaxRemove(line).Some? ==>
              exists p :: 0 <= p <= |line| && OccursAt(line, RemoveMarker, p) && p + |RemoveMarker| < |line| &&
                          DaxRemove(line).value.0 == line[p + |RemoveMarker|..] &&
                          forall p' :: p < p' <= |line| ==> !(OccursAt(line, RemoveMarker, p') && p' + |RemoveMarker| < |line|)
    ensures DaxRemove(line).None? <==>
              forall p :: 0 <= p <= |line| ==> !(OccursAt(line, RemoveMarker, p) && p + |RemoveMarker| < |line|)
  {
    TailIsRestAfterLastMarker(line, RemoveMarker, RemoveAt);
  }
}
