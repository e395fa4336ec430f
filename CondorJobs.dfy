/**
 * How orca reads HTCondor's text output (`condor_submit`, `condor_submit_dag`,
 * `condor_q`, `condor_q -af ClusterId`). A command's output is the sequence of
 * successive `readline()` results; an empty string is end of file, and so is reading
 * past the end of the sequence. A sequence of polls is a sequence of such outputs.
 */
module CondorJobs {
  import opened Wrappers
  import opened PyText
  import opened Regex

  const ClusterMarker := "1 job(s) submitted to cluster "

  /** The `readline()` result number `i` (0-based): once a read gave end of file, every later one does too. */
  function ReadLine(stream: seq<string>, i: nat): string {
    if i < |stream| && "" !in stream[..i] then stream[i] else ""
  }

  /**
   * One attempt of the pattern `1 job\(s\) submitted to cluster (\d+).` at position `p`.
   * The digit run is greedy, and the final `.` (any character but a newline) makes the
   * engine give back the last digit when nothing suitable follows the run.
   */
  function ClusterAt(line: string, p: nat): (r: Option<string>)
    ensures r.Some? ==> r.value != [] && AllDigits(r.value) &&
                        OccursAt(line, ClusterMarker, p) &&
                        OccursAt(line, r.value, p + |ClusterMarker|) &&
                        p + |ClusterMarker| + |r.value| < |line| &&
                        line[p + |ClusterMarker| + |r.value|] != '\n'
  {
    if !OccursAt(line, ClusterMarker, p) then None
    else
      var q := p + |ClusterMarker|;
      var e := SpanWhile(line, q, IsDigit);
      if e == q then None
      else if e < |line| && line[e] != '\n' then Some(line[q..e])
      else if e - q >= 2 then Some(line[q..e - 1])
      else None
  }

  /** `clusterexp.findall(line)[0]`, or None when nothing matches. */
  function FindCluster(line: string): Option<string> {
    Leftmost(line, ClusterAt)
  }

  /** A marker followed by a digit run and then a character that is neither a digit nor a newline yields that run. */
  lemma ClusterAtFollowedBy(line: string, p: nat, digits: string)
    requires OccursAt(line, ClusterMarker + digits, p)
    requires digits != [] && AllDigits(digits)
    requires p + |ClusterMarker| + |digits| < |line|
    requires !IsDigit(line[p + |ClusterMarker| + |digits|]) && line[p + |ClusterMarker| + |digits|] != '\n'
    ensures ClusterAt(line, p) == Some(digits)
  {
    var q := p + |ClusterMarker|;
    assert line[p..p + |ClusterMarker|] == (ClusterMarker + digits)[..|ClusterMarker|];
    assert OccursAt(line, ClusterMarker, p);
    forall k | q <= k < q + |digits| ensures IsDigit(line[k]) {
      assert line[k] == (ClusterMarker + digits)[k - p];
    }
    var e := SpanWhile(line, q, IsDigit);
    assert e == q + |digits|;
    assert line[q..e] == digits;
  }

  /** The acknowledgement `condor_submit` prints yields the cluster number. */
  lemma SubmitAckYieldsId()
    ensures FindCluster("1 job(s) submitted to cluster 1317.\n") == Some("1317")
  {
    var line := "1 job(s) submitted to cluster 1317.\n";
    assert line == ClusterMarker + "1317" + ".\n";
    ClusterAtFollowedBy(line, 0, "1317");
  }

  /** At the very end of a line the pattern's final `.` takes the last digit of the run. */
  lemma SubmitAckWithoutTrailer()
    ensures FindCluster("1 job(s) submitted to cluster 1317") == Some("131")
  {
    var line := "1 job(s) submitted to cluster 1317";
    assert line[0..|ClusterMarker|] == ClusterMarker;
    var e := SpanWhile(line, |ClusterMarker|, IsDigit);
    assert e == |line|;
    assert line[|ClusterMarker|..e - 1] == "131";
  }

  /** `submitJob`: the cluster id found on the second line read, or None. */
  function SubmitJob(stream: seq<string>): (r: Option<string>)
    ensures r.Some? ==> |stream| >= 2 && r.value != [] && AllDigits(r.value) &&
                        exists p: nat :: OccursAt(stream[1], ClusterMarker, p) &&
                                    OccursAt(stream[1], r.value, p + |ClusterMarker|)
    ensures r.None? <==> forall p :: 0 <= p <= |ReadLine(stream, 1)| ==> ClusterAt(ReadLine(stream, 1), p).None?
  {
    FindCluster(ReadLine(stream, 1))
  }

  /** What `submitJob` returns does not depend on any line but the second. */
  lemma SubmitJobReadsSecondLineOnly(a: seq<string>, b: seq<string>)
    requires ReadLine(a, 1) == ReadLine(b, 1)
    ensures SubmitJob(a) == SubmitJob(b)
  {
  }

  /** The lines a read loop collects before the first end-of-file read, each stripped. */
  function OutputLines(stream: seq<string>): (r: seq<string>)
    ensures |r| <= |stream| && (|r| == |stream| || stream[|r|] == "")
  {
    if stream == [] || stream[0] == "" then [] else [Strip(stream[0])] + OutputLines(stream[1..])
  }

  /** Line `k` of the collected output is the stripped `readline()` result number `k`, which was not end of file. */
  lemma {:induction false} OutputLinesAt(stream: seq<string>, k: nat)
    requires k < |OutputLines(stream)|
    ensures stream[k] != "" && OutputLines(stream)[k] == Strip(stream[k])
  {
    if k > 0 {
      OutputLinesAt(stream[1..], k - 1);
    }
  }

  /** The read loop of `condorSubmitDag` (and of `pegasusSubmitDax`). */
  method ReadOutput(stream: seq<string>) returns (output: seq<string>)
    ensures output == OutputLines(stream)
  {
    output := [];
    var i := 0;
    while i < |stream| && stream[i] != ""
      invariant 0 <= i <= |stream|
      invariant OutputLines(stream) == output + OutputLines(stream[i..])
    {
      assert stream[i..][1..] == stream[i + 1..];
      assert OutputLines(stream[i..]) == [Strip(stream[i])] + OutputLines(stream[i + 1..]);
      calc {
        OutputLines(stream);
        output + ([Strip(stream[i])] + OutputLines(stream[i + 1..]));
        (output + [Strip(stream[i])]) + OutputLines(stream[i + 1..]);
      }
      output := output + [Strip(stream[i])];
      i := i + 1;
    }
    assert OutputLines(stream[i..]) == [];
    assert output + [] == output;
  }

  /** The cluster id of the first line that matches, or None (`-1` in the Python code). */
  function FirstCluster(lines: seq<string>): Option<string> {
    FirstMatchFrom(lines, 0, FindCluster)
  }

  /** `condorSubmitDag`: every output line is read and stripped, then the first matching one gives the id. */
  method CondorSubmitDag(stream: seq<string>) returns (id: Option<string>)
    ensures id == FirstCluster(OutputLines(stream))
  {
    var output := ReadOutput(stream);
    var k := 0;
    while k < |output|
      invariant 0 <= k <= |output|
      invariant FirstCluster(output) == FirstMatchFrom(output, k, FindCluster)
    {
      var num := FindCluster(output[k]);
      if num.Some? {
        return num;
      }
      k := k + 1;
    }
    return None;
  }

  /** `"%s.0" % num`: the `condor_q` id of the first process of cluster `num`. */
  function JobId(num: string): string {
    num + ".0"
  }

  /** A `condor_q` line: no tokens, fewer than six (indexing the sixth fails), or an id and a status. */
  datatype Row = Blank | Short | Entry(id: string, state: string)

  function ClassifyRow(line: string): (r: Row)
    ensures r.Entry? ==> |Tokens(line)| >= 6 && r.id == Tokens(line)[0] && r.state == Tokens(line)[5]
    ensures r.Short? <==> 0 < |Tokens(line)| < 6
  {
    var values := Tokens(line);
    if |values| == 0 then Blank
    else if |values| < 6 then Short
    else Entry(values[0], values[5])
  }

  /** The statuses `waitForJobToRun` returns: running, held, removed, completed. */
  predicate IsTerminal(state: string) {
    state == "R" || state == "H" || state == "X" || state == "C"
  }

  predicate IsRowOf(line: string, jobNum: string) {
    ClassifyRow(line).Entry? && ClassifyRow(line).id == jobNum
  }

  /** A line at `j` lies before the end-of-file read of the listing. */
  predicate BeforeEof(lines: seq<string>, j: nat) {
    j < |lines| && forall m :: 0 <= m <= j ==> lines[m] != ""
  }

  /** How one `condor_q` listing ends for `waitForJobToRun`. */
  datatype Scan = Stopped(state: string) | Broken | Finished(sightings: nat)

  /** The scan of one listing from line `i`, `n` rows of the job having been seen so far in it. */
  function ScanFrom(lines: seq<string>, i: nat, jobNum: string, n: nat): (r: Scan)
    ensures r.Stopped? ==> IsTerminal(r.state) &&
                           exists j :: i <= j < |lines| && ClassifyRow(lines[j]) == Entry(jobNum, r.state)
    ensures r.Finished? ==> r.sightings >= n
    decreases |lines| - i
  {
    if i >= |lines| || lines[i] == "" then Finished(n)
    else match ClassifyRow(lines[i])
      case Blank => ScanFrom(lines, i + 1, jobNum, n)
      case Short => Broken
      case Entry(id, state) =>
        if id == jobNum && IsTerminal(state) then Stopped(state)
        else ScanFrom(lines, i + 1, jobNum, if id == jobNum then n + 1 else n)
  }

  function ScanListing(lines: seq<string>, jobNum: string): Scan {
    ScanFrom(lines, 0, jobNum, 0)
  }

  /** A listing scanned to its end without a sighting holds no row of the job before end of file. */
  lemma {:induction false} NoSightingMeansAbsent(lines: seq<string>, i: nat, jobNum: string, n: nat, j: nat)
    requires ScanFrom(lines, i, jobNum, n) == Finished(n)
    requires i <= j && BeforeEof(lines, j)
    ensures !IsRowOf(lines[j], jobNum)
    decreases j - i
  {
    if i < j && (ClassifyRow(lines[i]).Blank? || (ClassifyRow(lines[i]).Entry? && ClassifyRow(lines[i]).id != jobNum)) {
      NoSightingMeansAbsent(lines, i + 1, jobNum, n, j);
    }
  }

  /** A line the scan reads past: no tokens, or a row that is not the job with a terminal status. */
  predicate PassesScan(line: string, jobNum: string) {
    ClassifyRow(line).Blank? ||
    (ClassifyRow(line).Entry? && !(ClassifyRow(line).id == jobNum && IsTerminal(ClassifyRow(line).state)))
  }

  /** The first row of the job with a terminal status stops the scan, unless a short row comes first. */
  lemma {:induction false} ScanStopsAtTerminalRow(lines: seq<string>, i: nat, jobNum: string, n: nat, j: nat)
    requires i <= j && BeforeEof(lines, j)
    requires forall m :: i <= m < j ==> PassesScan(lines[m], jobNum)
    requires IsRowOf(lines[j], jobNum) && IsTerminal(ClassifyRow(lines[j]).state)
    ensures ScanFrom(lines, i, jobNum, n) == Stopped(ClassifyRow(lines[j]).state)
    decreases j - i
  {
    if i < j {
      var n' := if IsRowOf(lines[i], jobNum) then n + 1 else n;
      assert ScanFrom(lines, i, jobNum, n) == ScanFrom(lines, i + 1, jobNum, n');
      ScanStopsAtTerminalRow(lines, i + 1, jobNum, n', j);
    }
  }

  /** How `waitForJobToRun` ends: a terminal status, the job vanished, more polls needed, or an IndexError. */
  datatype JobWait = Reached(state: string) | Vanished | StillWaiting | RowTooShort

  /** The polls from number `k` on, `seen` being the counter `cJobSeen` so far. */
  function WaitFrom(listings: seq<seq<string>>, k: nat, jobNum: string, seen: nat): JobWait
    decreases |listings| - k
  {
    if k >= |listings| then StillWaiting
    else match ScanListing(listings[k], jobNum)
      case Stopped(state) => Reached(state)
      case Broken => RowTooShort
      case Finished(n) =>
        if seen > 0 && n == 0 then Vanished else WaitFrom(listings, k + 1, jobNum, seen + n)
  }

  function JobWaitOutcome(num: string, listings: seq<seq<string>>): JobWait {
    WaitFrom(listings, 0, JobId(num), 0)
  }

  /** `waitForJobToRun` over a bounded sequence of `condor_q` listings. */
  method WaitForJobToRun(num: string, listings: seq<seq<string>>) returns (r: JobWait)
    ensures r == JobWaitOutcome(num, listings)
  {
    var jobNum := JobId(num);
    var cJobSeen: nat := 0;
    var k := 0;
    while k < |listings|
      invariant 0 <= k <= |listings|
      invariant JobWaitOutcome(num, listings) == WaitFrom(listings, k, jobNum, cJobSeen)
    {
      var lines := listings[k];
      var bJobSeenNow := false;
      ghost var before := cJobSeen;
      ghost var now: nat := 0;
      var i := 0;
      while i < |lines| && lines[i] != ""
        invariant 0 <= i <= |lines|
        invariant cJobSeen == before + now && bJobSeenNow == (now > 0)
        invariant ScanListing(lines, jobNum) == ScanFrom(lines, i, jobNum, now)
      {
        var values := Tokens(lines[i]);
        if |values| == 0 {
          i := i + 1;
          continue;
        }
        if |values| < 6 {
          return RowTooShort;
        }
        var runstate := values[5];
        if values[0] == jobNum {
          cJobSeen := cJobSeen + 1;
          bJobSeenNow := true;
          now := now + 1;
          if IsTerminal(runstate) {
            return Reached(runstate);
          }
        }
        i := i + 1;
      }
      if cJobSeen > 0 && !bJobSeenNow {
        return Vanished;
      }
      k := k + 1;
    }
    return StillWaiting;
  }

  /** Only the statuses R, H, X and C are returned, each read from a row of the job. */
  lemma {:induction false} ReachedIsTerminalRow(listings: seq<seq<string>>, k: nat, jobNum: string, seen: nat)
    requires WaitFrom(listings, k, jobNum, seen).Reached?
    ensures IsTerminal(WaitFrom(listings, k, jobNum, seen).state)
    ensures exists k', j :: k <= k' < |listings| && 0 <= j < |listings[k']| &&
              ClassifyRow(listings[k'][j]) == Entry(jobNum, WaitFrom(listings, k, jobNum, seen).state)
    decreases |listings| - k
  {
    var scan := ScanListing(listings[k], jobNum);
    if !scan.Stopped? {
      ReachedIsTerminalRow(listings, k + 1, jobNum, seen + scan.sightings);
    }
  }

  /** The listing `k` holds a row of the job before its end of file. */
  ghost predicate ListsJob(listings: seq<seq<string>>, k: nat, jobNum: string) {
    k < |listings| && exists j: nat :: BeforeEof(listings[k], j) && IsRowOf(listings[k][j], jobNum)
  }

  lemma {:induction false} VanishedFrom(listings: seq<seq<string>>, k: nat, jobNum: string, seen: nat)
    requires WaitFrom(listings, k, jobNum, seen) == Vanished
    ensures exists v :: k <= v < |listings| && ScanListing(listings[v], jobNum) == Finished(0) &&
              (seen > 0 || exists w :: k <= w < v && ScanListing(listings[w], jobNum).Finished? &&
                                                     ScanListing(listings[w], jobNum).sightings > 0)
    decreases |listings| - k
  {
    var scan := ScanListing(listings[k], jobNum);
    if !(seen > 0 && scan.sightings == 0) {
      VanishedFrom(listings, k + 1, jobNum, seen + scan.sightings);
    }
  }

  /** A listing scanned to its end with a sighting lists the job before its end of file. */
  lemma {:induction false} SightingFrom(lines: seq<string>, i: nat, jobNum: string, n: nat)
    requires i <= |lines|
    requires forall m :: 0 <= m < i ==> lines[m] != ""
    requires ScanFrom(lines, i, jobNum, n).Finished? && ScanFrom(lines, i, jobNum, n).sightings > n
    ensures exists j: nat :: i <= j && BeforeEof(lines, j) && IsRowOf(lines[j], jobNum)
    decreases |lines| - i
  {
    if IsRowOf(lines[i], jobNum) {
      assert BeforeEof(lines, i);
    } else if ClassifyRow(lines[i]).Blank? || ClassifyRow(lines[i]).Entry? {
      SightingFrom(lines, i + 1, jobNum, n);
    }
  }

  /**
   * `waitForJobToRun` reports a vanished job only when an earlier listing held a row of
   * the job and a later one, read to its end, held none.
   */
  lemma VanishedOnlyAfterSeen(num: string, listings: seq<seq<string>>)
    requires JobWaitOutcome(num, listings) == Vanished
    ensures exists v, w :: 0 <= w < v < |listings| && ListsJob(listings, w, JobId(num)) &&
              ScanListing(listings[v], JobId(num)).Finished? && !ListsJob(listings, v, JobId(num))
  {
    var jobNum := JobId(num);
    VanishedFrom(listings, 0, jobNum, 0);
    var v :| 0 <= v < |listings| && ScanListing(listings[v], jobNum) == Finished(0) &&
             exists w :: 0 <= w < v && ScanListing(listings[w], jobNum).Finished? &&
                                       ScanListing(listings[w], jobNum).sightings > 0;
    var w :| 0 <= w < v && ScanListing(listings[w], jobNum).Finished? &&
             ScanListing(listings[w], jobNum).sightings > 0;
    SightingFrom(listings[w], 0, jobNum, 0);
    assert ListsJob(listings, w, jobNum);
    forall j: nat | BeforeEof(listings[v], j) ensures !IsRowOf(listings[v][j], jobNum) {
      NoSightingMeansAbsent(listings[v], 0, jobNum, 0, j);
    }
    assert !ListsJob(listings, v, jobNum);
  }

  /** `[job for job in jobs if job != entry]`. */
  function Without(jobs: seq<string>, entry: string): (r: seq<string>)
    ensures forall x :: x in r <==> x in jobs && x != entry
    ensures |r| <= |jobs|
  {
    if jobs == [] then []
    else if jobs[0] == entry then Without(jobs[1..], entry)
    else [jobs[0]] + Without(jobs[1..], entry)
  }

  /** A row with status R of a listed job removes that job, with all its duplicates; any other row changes nothing. */
  function AfterRow(jobs: seq<string>, id: string, state: string): (r: Option<seq<string>>)
    ensures r.Some? <==> state == "R" && exists e :: e in jobs && JobId(e) == id
    ensures r.Some? ==> forall e :: e in jobs && JobId(e) == id ==> r.value == Without(jobs, e)
  {
    if state == "R" && |id| >= 2 && id[|id| - 2..] == ".0" && id[..|id| - 2] in jobs then
      assert JobId(id[..|id| - 2]) == id;
      Some(Without(jobs, id[..|id| - 2]))
    else
      assert forall e :: JobId(e) == id ==> e == id[..|id| - 2] by {
        forall e | JobId(e) == id ensures e == id[..|id| - 2] { assert id[..|e|] == e; }
      }
      None
  }

  /** The first listed job a row shows running is the one `AfterRow` drops; when there is none, the row changes nothing. */
  lemma AfterRowFound(jobs: seq<string>, id: string, state: string, m: nat)
    requires m <= |jobs|
    requires forall m' :: 0 <= m' < m ==> !(id == JobId(jobs[m']) && state == "R")
    requires m < |jobs| ==> id == JobId(jobs[m]) && state == "R"
    requires m == |jobs| ==> forall e :: e in jobs ==> !(id == JobId(e) && state == "R")
    ensures AfterRow(jobs, id, state) == if m < |jobs| then Some(Without(jobs, jobs[m])) else None
  {
  }

  /** How one listing ends for `waitForAllJobsToRun`. */
  datatype AllScan = AllDone | AllBroken | AllLeft(jobs: seq<string>)

  function ScanAllFrom(lines: seq<string>, i: nat, jobs: seq<string>): AllScan
    decreases |lines| - i
  {
    if i >= |lines| || lines[i] == "" then AllLeft(jobs)
    else match ClassifyRow(lines[i])
      case Blank => ScanAllFrom(lines, i + 1, jobs)
      case Short => AllBroken
      case Entry(id, state) =>
        match AfterRow(jobs, id, state)
        case Some(left) => if left == [] then AllDone else ScanAllFrom(lines, i + 1, left)
        case None => ScanAllFrom(lines, i + 1, jobs)
  }

  /**
   * One row of a listing, for `waitForAllJobsToRun`, given the first job `m` it shows running
   * (`m == |jobs|` when it shows none): that job and its duplicates are dropped, and the scan
   * ends when none is left.
   */
  lemma ScanAllRow(lines: seq<string>, i: nat, jobs: seq<string>, m: nat)
    requires i < |lines| && lines[i] != "" && |Tokens(lines[i])| >= 6
    requires m <= |jobs|
    requires forall m' :: 0 <= m' < m ==> !(Tokens(lines[i])[0] == JobId(jobs[m']) && Tokens(lines[i])[5] == "R")
    requires m < |jobs| ==> Tokens(lines[i])[0] == JobId(jobs[m]) && Tokens(lines[i])[5] == "R"
    ensures m < |jobs| && Without(jobs, jobs[m]) == [] ==> ScanAllFrom(lines, i, jobs) == AllDone
    ensures m < |jobs| && Without(jobs, jobs[m]) != [] ==>
              ScanAllFrom(lines, i, jobs) == ScanAllFrom(lines, i + 1, Without(jobs, jobs[m]))
    ensures m == |jobs| ==> ScanAllFrom(lines, i, jobs) == ScanAllFrom(lines, i + 1, jobs)
  {
    var values := Tokens(lines[i]);
    assert ClassifyRow(lines[i]) == Entry(values[0], values[5]);
    AfterRowFound(jobs, values[0], values[5], m);
  }

  /** How `waitForAllJobsToRun` ends: every job running, more polls needed, or an IndexError. */
  datatype AllWait = AllRunning | AllWaiting(remaining: seq<string>) | AllRowTooShort

  function WaitAllFrom(listings: seq<seq<string>>, k: nat, jobs: seq<string>): AllWait
    decreases |listings| - k
  {
    if k >= |listings| then AllWaiting(jobs)
    else match ScanAllFrom(listings[k], 0, jobs)
      case AllDone => AllRunning
      case AllBroken => AllRowTooShort
      case AllLeft(left) => WaitAllFrom(listings, k + 1, left)
  }

  function AllJobsOutcome(numList: seq<string>, listings: seq<seq<string>>): AllWait {
    WaitAllFrom(listings, 0, numList)
  }

  /** `waitForAllJobsToRun` over a bounded sequence of `condor_q` listings. */
  method WaitForAllJobsToRun(numList: seq<string>, listings: seq<seq<string>>) returns (r: AllWait)
    ensures r == AllJobsOutcome(numList, listings)
  {
    var jobList := numList;
    var k := 0;
    while k < |listings|
      invariant 0 <= k <= |listings|
      invariant AllJobsOutcome(numList, listings) == WaitAllFrom(listings, k, jobList)
    {
      var lines := listings[k];
      ghost var start := jobList;
      var i := 0;
      while i < |lines| && lines[i] != ""
        invariant 0 <= i <= |lines|
        invariant ScanAllFrom(lines, 0, start) == ScanAllFrom(lines, i, jobList)
      {
        var values := Tokens(lines[i]);
        if |values| == 0 {
          i := i + 1;
          continue;
        }
        if |values| < 6 {
          return AllRowTooShort;
        }
        var jobNum := values[0];
        var runstate := values[5];
        var m := 0;
        while m < |jobList| && !(jobNum == JobId(jobList[m]) && runstate == "R")
          invariant 0 <= m <= |jobList|
          invariant forall m' :: 0 <= m' < m ==> !(jobNum == JobId(jobList[m']) && runstate == "R")
        {
          m := m + 1;
        }
        ScanAllRow(lines, i, jobList, m);
        if m < |jobList| {
          jobList := Without(jobList, jobList[m]);
          if |jobList| == 0 {
            return AllRunning;
          }
        }
        i := i + 1;
      }
      k := k + 1;
    }
    return AllWaiting(jobList);
  }

  /** Some listing holds a row that shows `entry`'s job running. */
  predicate ShowsRunning(listings: seq<seq<string>>, entry: string) {
    exists k, j :: 0 <= k < |listings| && 0 <= j < |listings[k]| && ClassifyRow(listings[k][j]) == Entry(JobId(entry), "R")
  }

  /** The jobs still waited for are jobs of the original list; every dropped one was seen running. */
  predicate Accounted(orig: seq<string>, jobs: seq<string>, listings: seq<seq<string>>) {
    (forall e :: e in jobs ==> e in orig) &&
    (forall e :: e in orig && e !in jobs ==> ShowsRunning(listings, e))
  }

  /**
   * A row that shows a listed job running leaves the remaining jobs accounted for; when none
   * remains, every original job was seen running.
   */
  lemma DropAccounted(orig: seq<string>, listings: seq<seq<string>>, k: nat, i: nat, jobs: seq<string>, id: string, left: seq<string>)
    requires k < |listings| && i < |listings[k]| && Accounted(orig, jobs, listings)
    requires ClassifyRow(listings[k][i]) == Entry(id, "R")
    requires exists e :: e in jobs && JobId(e) == id
    requires forall e :: e in jobs && JobId(e) == id ==> left == Without(jobs, e)
    ensures Accounted(orig, left, listings)
    ensures left == [] ==> jobs != [] && forall e :: e in orig ==> ShowsRunning(listings, e)
  {
    var e :| e in jobs && JobId(e) == id;
    assert left == Without(jobs, e);
    forall x | x in orig && x !in left ensures ShowsRunning(listings, x) {
      if x in jobs {
        assert x == e;
      }
    }
  }

  lemma {:induction false} ScanAllAccounted(orig: seq<string>, listings: seq<seq<string>>, k: nat, i: nat, jobs: seq<string>)
    requires k < |listings| && Accounted(orig, jobs, listings)
    ensures ScanAllFrom(listings[k], i, jobs).AllLeft? ==> Accounted(orig, ScanAllFrom(listings[k], i, jobs).jobs, listings)
    ensures ScanAllFrom(listings[k], i, jobs).AllDone? ==> jobs != [] && forall e :: e in orig ==> ShowsRunning(listings, e)
    decreases |listings[k]| - i
  {
    var lines := listings[k];
    if i < |lines| && lines[i] != "" {
      match ClassifyRow(lines[i])
      case Blank => ScanAllAccounted(orig, listings, k, i + 1, jobs);
      case Short =>
      case Entry(id, state) =>
        match AfterRow(jobs, id, state)
        case Some(left) =>
          DropAccounted(orig, listings, k, i, jobs, id, left);
          if left != [] {
            ScanAllAccounted(orig, listings, k, i + 1, left);
          }
        case None => ScanAllAccounted(orig, listings, k, i + 1, jobs);
    }
  }

  lemma {:induction false} WaitAllAccounted(orig: seq<string>, listings: seq<seq<string>>, k: nat, jobs: seq<string>)
    requires Accounted(orig, jobs, listings)
    ensures WaitAllFrom(listings, k, jobs).AllWaiting? ==> Accounted(orig, WaitAllFrom(listings, k, jobs).remaining, listings)
    ensures WaitAllFrom(listings, k, jobs).AllRunning? ==> jobs != [] && forall e :: e in orig ==> ShowsRunning(listings, e)
    decreases |listings| - k
  {
    if k < |listings| {
      ScanAllAccounted(orig, listings, k, 0, jobs);
      match ScanAllFrom(listings[k], 0, jobs)
      case AllDone =>
      case AllBroken =>
      case AllLeft(left) =>
        WaitAllAccounted(orig, listings, k + 1, left);
        if left != [] {
          AllLeftShrinks(listings[k], 0, jobs, left[0]);
        }
    }
  }

  lemma {:induction false} AllLeftShrinks(lines: seq<string>, i: nat, jobs: seq<string>, x: string)
    requires ScanAllFrom(lines, i, jobs).AllLeft? && x in ScanAllFrom(lines, i, jobs).jobs
    ensures x in jobs
    decreases |lines| - i
  {
    if i < |lines| && lines[i] != "" {
      match ClassifyRow(lines[i])
      case Blank => AllLeftShrinks(lines, i + 1, jobs, x);
      case Short =>
      case Entry(id, state) =>
        match AfterRow(jobs, id, state)
        case Some(left) => AllLeftShrinks(lines, i + 1, left, x);
        case None => AllLeftShrinks(lines, i + 1, jobs, x);
    }
  }

  /**
   * `waitForAllJobsToRun` returns only for a non-empty list each of whose jobs some row showed
   * running; while it waits, it waits for jobs of the list, and every job it dropped was seen running.
   */
  lemma AllJobsRunningOnlyWhenSeen(numList: seq<string>, listings: seq<seq<string>>)
    ensures AllJobsOutcome(numList, listings).AllRunning? ==>
              numList != [] && forall e :: e in numList ==> ShowsRunning(listings, e)
    ensures AllJobsOutcome(numList, listings).AllWaiting? ==>
              Accounted(numList, AllJobsOutcome(numList, listings).remaining, listings)
  {
    WaitAllAccounted(numList, listings, 0, numList);
  }

  /** Why `isJobAlive` raises (ValueError from `int`). */
  datatype AliveError = BadClusterId | BadListingLine(line: string)

  /** The `condor_q -af ClusterId` lines from `i` on: stop at the first blank one, fail on one that is not an integer. */
  function AliveFrom(lines: seq<string>, i: nat, jobNum: int): Result<bool, AliveError>
    decreases |lines| - i
  {
    if i >= |lines| || StripBytes(lines[i]) == [] then Success(false)
    else match ParseInt(StripBytes(lines[i]))
      case None => Failure(BadListingLine(StripBytes(lines[i])))
      case Some(value) => if value == jobNum then Success(true) else AliveFrom(lines, i + 1, jobNum)
  }

  function JobAlive(cid: string, lines: seq<string>): Result<bool, AliveError> {
    match ParseInt(Strip(cid))
    case None => Failure(BadClusterId)
    case Some(jobNum) => AliveFrom(lines, 0, jobNum)
  }

  /** `isJobAlive` over the output of `condor_q -af ClusterId`. */
  method IsJobAlive(cid: string, lines: seq<string>) returns (r: Result<bool, AliveError>)
    ensures r == JobAlive(cid, lines)
  {
    var parsed := ParseInt(Strip(cid));
    if parsed.None? {
      return Failure(BadClusterId);
    }
    var jobNum := parsed.value;
    var i := 0;
    while true
      invariant 0 <= i <= |lines|
      invariant JobAlive(cid, lines) == AliveFrom(lines, i, jobNum)
      decreases |lines| - i
    {
      var line := if i < |lines| then StripBytes(lines[i]) else "";
      if line == [] {
        break;
      }
      var value := ParseInt(line);
      if value.None? {
        return Failure(BadListingLine(line));
      }
      if value.value == jobNum {
        return Success(true);
      }
      i := i + 1;
    }
    return Success(false);
  }

  /** Every line before `i` is a non-blank integer other than `jobNum`. */
  predicate OthersBefore(lines: seq<string>, i: nat, jobNum: int) {
    i <= |lines| &&
    forall m :: 0 <= m < i ==> StripBytes(lines[m]) != [] && ParseInt(StripBytes(lines[m])).Some? &&
                               ParseInt(StripBytes(lines[m])).value != jobNum
  }

  lemma {:induction false} AliveFromTrue(lines: seq<string>, i: nat, jobNum: int)
    requires OthersBefore(lines, i, jobNum)
    ensures AliveFrom(lines, i, jobNum) == Success(true) <==>
              exists j :: i <= j < |lines| && OthersBefore(lines, j, jobNum) && ParseInt(StripBytes(lines[j])) == Some(jobNum)
    decreases |lines| - i
  {
    if i < |lines| && StripBytes(lines[i]) != [] {
      var v := ParseInt(StripBytes(lines[i]));
      if v.Some? && v.value != jobNum {
        assert OthersBefore(lines, i + 1, jobNum);
        AliveFromTrue(lines, i + 1, jobNum);
      }
    } else {
      if i < |lines| {
        assert ParseInt([]).None?;
      }
    }
  }

  /**
   * `isJobAlive` is true exactly when the id parses and some listing line equals it, every line
   * before that one being a non-blank integer (a blank line ends the scan, a non-integer raises).
   */
  lemma JobAliveIffListed(cid: string, lines: seq<string>)
    ensures JobAlive(cid, lines) == Success(true) <==>
              ParseInt(Strip(cid)).Some? &&
              exists j :: 0 <= j < |lines| && OthersBefore(lines, j, ParseInt(Strip(cid)).value) &&
                          ParseInt(StripBytes(lines[j])) == ParseInt(Strip(cid))
  {
    if ParseInt(Strip(cid)).Some? {
      AliveFromTrue(lines, 0, ParseInt(Strip(cid)).value);
    }
  }
}
