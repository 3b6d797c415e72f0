/** The queue that collects string procs while rooms are written and, once
    all rooms are done, writes their script files and runs the Ruby
    formatter over them in slices of at most 500 files; when a formatter run
    raises, every queued script is formatted again on its own. */
module ProcBatch {
  import opened Wrappers
  import opened Text
  import opened StringProcs
  import Files

  /** Files per formatter run, which keeps its command line short. */
  const BatchSize: nat := 500

  /** The formatter (`standardrb --fix-unsafely`) as given functions:
      `route` is where a script location lives inside the git directory, and
      `run` is what the formatter prints for a list of files, or the error
      its invocation raised. */
  datatype Formatter = Formatter(route: string -> string, run: seq<string> -> Result<string, string>)

  function Min(a: int, b: int): int {
    if a < b then a else b
  }

  // ---------------------------------------------------------------------------
  // Slicing the queue

  /** `Math.ceil(n / 500)`. */
  function BatchCount(n: nat): nat {
    (n + BatchSize - 1) / BatchSize
  }

  /** The number of batches is the least that holds `n` files. */
  lemma BatchCountIsCeiling(n: nat)
    ensures BatchCount(n) * BatchSize >= n
    ensures n > 0 ==> (BatchCount(n) - 1) * BatchSize < n
    ensures BatchCount(n) == 0 <==> n == 0
  {
    var c := BatchCount(n);
    assert c * BatchSize <= n + BatchSize - 1 < c * BatchSize + BatchSize;
  }

  /** The queue cut into consecutive slices of at most 500, in order. */
  function Batches(queue: seq<Proc>): seq<seq<Proc>>
    decreases |queue|
  {
    if queue == [] then []
    else if |queue| <= BatchSize then [queue]
    else [queue[..BatchSize]] + Batches(queue[BatchSize..])
  }

  function Flatten(bs: seq<seq<Proc>>): seq<Proc> {
    if bs == [] then [] else bs[0] + Flatten(bs[1..])
  }

  /** The slices hold every queued proc exactly once and in queue order,
      there are `ceil(n / 500)` of them, and none is empty or holds more
      than 500. */
  lemma {:induction false} BatchesCover(queue: seq<Proc>)
    ensures Flatten(Batches(queue)) == queue
    ensures |Batches(queue)| == BatchCount(|queue|)
    ensures forall b :: 0 <= b < |Batches(queue)| ==> 0 < |Batches(queue)[b]| <= BatchSize
    decreases |queue|
  {
    if |queue| > BatchSize {
      var rest := queue[BatchSize..];
      BatchesCover(rest);
      assert queue == queue[..BatchSize] + rest;
      assert BatchCount(|queue|) == BatchCount(|rest|) + 1;
    } else if queue != [] {
      assert Flatten([queue]) == queue + Flatten([]);
    }
  }

  /** Slice `b` is `queue.slice(b * 500, min(b * 500 + 500, n))`. */
  lemma {:induction false} BatchesAreSlices(queue: seq<Proc>, b: nat)
    requires b < BatchCount(|queue|)
    ensures b * BatchSize < |queue|
    ensures b < |Batches(queue)| && Batches(queue)[b] == queue[b * BatchSize..Min(b * BatchSize + BatchSize, |queue|)]
    decreases |queue|
  {
    BatchesCover(queue);
    if b > 0 {
      var rest := queue[BatchSize..];
      assert BatchCount(|rest|) == BatchCount(|queue|) - 1;
      BatchesAreSlices(rest, b - 1);
      assert Batches(queue)[b] == Batches(rest)[b - 1];
      var start := (b - 1) * BatchSize;
      assert rest[start..Min(start + BatchSize, |rest|)]
          == queue[b * BatchSize..Min(b * BatchSize + BatchSize, |queue|)];
    }
  }

  // ---------------------------------------------------------------------------
  // Attributing formatter output to scripts

  /** `line.match(/^([^:]+):/)`: the non-empty text before the first colon. */
  function LineFile(line: string): Option<string> {
    match FindChar(line, ':')
    case None => None
    case Some(i) => if i == 0 then None else Some(line[..i])
  }

  /** A line names a file exactly when it holds a colon that is not its
      first character, and the name is everything before the first colon. */
  lemma LineFileNames(line: string)
    ensures LineFile(line).None? <==> (':' !in line || line[0] == ':')
    ensures LineFile(line).Some? ==>
      var f := LineFile(line).value;
      && f != [] && ':' !in f && |f| < |line| && line[..|f|] == f && line[|f|] == ':'
  {
    match FindChar(line, ':')
    case None =>
    case Some(i) =>
      if i > 0 {
        assert forall j :: 0 <= j < i ==> line[..i][j] == line[j];
      }
  }

  /** A line that names a file is never blank, so dropping blank lines first
      drops no report. */
  lemma NamingLineNotBlank(line: string)
    requires LineFile(line).Some?
    ensures Trim(line) != []
  {
    LineFileNames(line);
    TrimEmptyAllSpace(line);
    assert !IsSpace(line[|LineFile(line).value|]);
  }

  /** `batch.find(p => route(p.location) === file)`. */
  function FindProc(batch: seq<Proc>, route: string -> string, file: string): Option<Proc> {
    if batch == [] then None
    else if route(batch[0].location) == file then Some(batch[0])
    else FindProc(batch[1..], route, file)
  }

  /** The proc found is the first whose route is `file`, and there is none
      exactly when no proc's route is `file`. */
  lemma {:induction false} FindProcFirst(batch: seq<Proc>, route: string -> string, file: string)
    ensures FindProc(batch, route, file).None? <==>
      forall k :: 0 <= k < |batch| ==> route(batch[k].location) != file
    ensures FindProc(batch, route, file).Some? ==>
      exists k :: 0 <= k < |batch| && batch[k] == FindProc(batch, route, file).value
                  && route(batch[k].location) == file
                  && forall j :: 0 <= j < k ==> route(batch[j].location) != file
  {
    if batch != [] && route(batch[0].location) != file {
      FindProcFirst(batch[1..], route, file);
      if FindProc(batch, route, file).Some? {
        var k :| 0 <= k < |batch[1..]| && batch[1..][k] == FindProc(batch, route, file).value
                 && route(batch[1..][k].location) == file
                 && forall j :: 0 <= j < k ==> route(batch[1..][j].location) != file;
        assert batch[k + 1] == batch[1..][k];
        assert forall j :: 1 <= j < k + 1 ==> batch[j] == batch[1..][j - 1];
      }
    }
  }

  /** The formatter's output lines, `"../"` removed everywhere. */
  function Lines(stdout: string): seq<string> {
    Split(ReplaceAll(stdout, "../", ""), '\n')
  }

  /** What one output line contributes: nothing when it is blank, names no
      file or names no file of the batch; otherwise the line itself, filed
      under the location of the first proc of the batch it names. */
  function LineReport(line: string, batch: seq<Proc>, route: string -> string): Option<Report> {
    if Trim(line) == [] then None
    else
      match LineFile(line)
      case None => None
      case Some(file) =>
        match FindProc(batch, route, file)
        case None => None
        case Some(p) => Some(Report(line, p.location))
  }

  /** A line yields a report exactly when it names the route of a proc of
      the batch; the report is the line itself, filed under the location of
      the first such proc. */
  lemma LineReportIff(line: string, batch: seq<Proc>, route: string -> string)
    ensures LineReport(line, batch, route).Some? <==>
      (LineFile(line).Some? && exists k :: 0 <= k < |batch| && route(batch[k].location) == LineFile(line).value)
    ensures LineReport(line, batch, route).Some? ==>
      exists k :: 0 <= k < |batch| && LineReport(line, batch, route) == Some(Report(line, batch[k].location))
                  && Some(route(batch[k].location)) == LineFile(line)
                  && forall j :: 0 <= j < k ==> Some(route(batch[j].location)) != LineFile(line)
  {
    if LineFile(line).Some? {
      NamingLineNotBlank(line);
      FindProcFirst(batch, route, LineFile(line).value);
    }
  }

  /** The reports of the lines, in line order. */
  function Attribute(lines: seq<string>, batch: seq<Proc>, route: string -> string): seq<Report> {
    if lines == [] then []
    else
      Attribute(lines[..|lines| - 1], batch, route)
        + match LineReport(lines[|lines| - 1], batch, route) case None => [] case Some(r) => [r]
  }

  /** Every attributed report is one of the output lines, filed under the
      location of a proc of the batch whose route that line names. */
  lemma {:induction false} AttributeSound(lines: seq<string>, batch: seq<Proc>, route: string -> string)
    ensures forall r :: r in Attribute(lines, batch, route) ==>
      r.err in lines && exists k :: 0 <= k < |batch| && r.file == batch[k].location
                                    && LineFile(r.err) == Some(route(batch[k].location))
  {
    if lines != [] {
      var init := lines[..|lines| - 1];
      AttributeSound(init, batch, route);
      LineReportIff(lines[|lines| - 1], batch, route);
      forall r | r in Attribute(lines, batch, route)
        ensures r.err in lines && exists k :: 0 <= k < |batch| && r.file == batch[k].location
                                             && LineFile(r.err) == Some(route(batch[k].location))
      {
        if r in Attribute(init, batch, route) {
          assert r.err in init;
        }
      }
    }
  }

  /** The routes of a slice's files, in slice order. */
  function Routes(route: string -> string, batch: seq<Proc>): seq<string> {
    seq(|batch|, k requires 0 <= k < |batch| => route(batch[k].location))
  }

  /** One formatter run over a slice: its reports, or the error it raised. */
  function FormatSlice(fmt: Formatter, batch: seq<Proc>): Result<seq<Report>, string> {
    var stdout :- fmt.run(Routes(fmt.route, batch));
    Success(if |stdout| > 0 then Attribute(Lines(stdout), batch, fmt.route) else [])
  }

  /** The reports of a slice's run are about the slice's own procs. */
  lemma FormatSliceSound(fmt: Formatter, batch: seq<Proc>)
    ensures FormatSlice(fmt, batch).Success? ==>
      forall r :: r in FormatSlice(fmt, batch).value ==> exists k :: 0 <= k < |batch| && r.file == batch[k].location
  {
    var stdout := fmt.run(Routes(fmt.route, batch));
    if stdout.Success? && |stdout.value| > 0 {
      AttributeSound(Lines(stdout.value), batch, fmt.route);
    }
  }

  // ---------------------------------------------------------------------------
  // The run over all slices and the fallback

  /** The reports gathered so far and whether a run has raised. */
  datatype Run = Run(errors: seq<Report>, threw: bool)

  /** The slices run in order; the first run that raises ends the loop and
      keeps the reports of the runs before it. */
  function RunBatches(fmt: Formatter, bs: seq<seq<Proc>>): Run {
    if bs == [] then Run([], false)
    else
      var done := RunBatches(fmt, bs[..|bs| - 1]);
      if done.threw then done
      else
        match FormatSlice(fmt, bs[|bs| - 1])
        case Failure(_) => Run(done.errors, true)
        case Success(es) => Run(done.errors + es, false)
  }

  lemma {:induction false} RunBatchesSticks(fmt: Formatter, bs: seq<seq<Proc>>, n: nat)
    requires n <= |bs| && RunBatches(fmt, bs[..n]).threw
    ensures RunBatches(fmt, bs) == RunBatches(fmt, bs[..n])
    decreases |bs|
  {
    if n < |bs| {
      assert bs[..|bs| - 1][..n] == bs[..n];
      RunBatchesSticks(fmt, bs[..|bs| - 1], n);
    } else {
      assert bs[..n] == bs;
    }
  }

  /** The formatter run on the file at one location: its output, `"../"`
      removed, is reported under that location when it printed anything. */
  function FormatFile(fmt: Formatter, location: string): Result<Option<Report>, string> {
    var stdout :- fmt.run([fmt.route(location)]);
    Success(if |stdout| > 0 then Some(Report(ReplaceAll(stdout, "../", ""), location)) else None)
  }

  /** `formatIndividual`: the formatter run on one proc's file. */
  function FormatIndividual(fmt: Formatter, p: Proc): Result<Option<Report>, string> {
    FormatFile(fmt, p.location)
  }

  /** The fallback over the whole queue, from its start: a report is kept
      when its text is not empty; an error raised here is not caught. */
  function Fallback(fmt: Formatter, queue: seq<Proc>): Result<seq<Report>, string> {
    if queue == [] then Success([])
    else
      var done :- Fallback(fmt, queue[..|queue| - 1]);
      var out :- FormatIndividual(fmt, queue[|queue| - 1]);
      Success(done + if out.Some? && out.value.err != [] then [out.value] else [])
  }

  /** Every fallback report is about a queued proc. */
  lemma {:induction false} FallbackSound(fmt: Formatter, queue: seq<Proc>)
    ensures Fallback(fmt, queue).Success? ==>
      forall r :: r in Fallback(fmt, queue).value ==> exists k :: 0 <= k < |queue| && r.file == queue[k].location
  {
    if queue != [] {
      var init := queue[..|queue| - 1];
      FallbackSound(fmt, init);
      if Fallback(fmt, queue).Success? {
        forall r | r in Fallback(fmt, queue).value
          ensures exists k :: 0 <= k < |queue| && r.file == queue[k].location
        {
          if r in Fallback(fmt, init).value {
            var k :| 0 <= k < |init| && r.file == init[k].location;
            assert queue[k] == init[k];
          } else {
            assert r.file == queue[|queue| - 1].location;
          }
        }
      }
    }
  }

  /** The script files written in queue order: a later proc written to the
      same location wins. */
  function WriteAll(files: map<string, string>, queue: seq<Proc>): map<string, string> {
    if queue == [] then files
    else WriteAll(files, queue[..|queue| - 1])[queue[|queue| - 1].location := queue[|queue| - 1].ruby]
  }

  /** Writing the queue is laying the queue's own writes over the files. */
  lemma {:induction false} WriteAllOverlays(files: map<string, string>, queue: seq<Proc>)
    ensures WriteAll(files, queue) == files + WriteAll(map[], queue)
  {
    if queue != [] {
      WriteAllOverlays(files, queue[..|queue| - 1]);
      WriteAllOverlays(map[], queue[..|queue| - 1]);
    }
  }

  /** The queue's own writes are at exactly the queued locations. */
  lemma {:induction false} WriteAllDomain(queue: seq<Proc>)
    ensures WriteAll(map[], queue).Keys == set k | 0 <= k < |queue| :: queue[k].location
  {
    if queue != [] {
      var init := queue[..|queue| - 1];
      WriteAllDomain(init);
      var last := queue[|queue| - 1].location;
      assert (set k | 0 <= k < |queue| :: queue[k].location)
          == (set k | 0 <= k < |init| :: init[k].location) + {last} by {
        forall k | 0 <= k < |init| ensures init[k] == queue[k] {}
      }
    }
  }

  /** After the writes every queued location is present. */
  lemma WriteAllReaches(files: map<string, string>, queue: seq<Proc>)
    ensures forall k :: 0 <= k < |queue| ==> queue[k].location in WriteAll(files, queue)
  {
    WriteAllOverlays(files, queue);
    WriteAllDomain(queue);
  }

  /** A path no proc is written to keeps what it held. */
  lemma WriteAllSpares(files: map<string, string>, queue: seq<Proc>, path: string)
    requires forall k :: 0 <= k < |queue| ==> queue[k].location != path
    ensures path in WriteAll(files, queue) <==> path in files
    ensures path in files ==> WriteAll(files, queue)[path] == files[path]
  {
    WriteAllOverlays(files, queue);
    WriteAllDomain(queue);
  }

  /** Writing the queue a second time changes nothing. */
  lemma WriteAllTwice(files: map<string, string>, queue: seq<Proc>)
    ensures WriteAll(WriteAll(files, queue), queue) == WriteAll(files, queue)
  {
    WriteAllOverlays(files, queue);
    WriteAllOverlays(WriteAll(files, queue), queue);
    var w := WriteAll(map[], queue);
    assert files + w + w == files + w;
  }

  /** After the writes every queued location holds a script, and the last
      proc queued for a location holds it. */
  lemma {:induction false} WriteAllHolds(files: map<string, string>, queue: seq<Proc>, k: nat)
    requires k < |queue|
    requires forall j :: k < j < |queue| ==> queue[j].location != queue[k].location
    ensures queue[k].location in WriteAll(files, queue)
    ensures WriteAll(files, queue)[queue[k].location] == queue[k].ruby
  {
    if k < |queue| - 1 {
      WriteAllHolds(files, queue[..|queue| - 1], k);
    }
  }

  /** The files as the fallback leaves them: each proc's script written
      again before its run, up to the run that raises. */
  function FallbackWrites(files: map<string, string>, fmt: Formatter, queue: seq<Proc>): map<string, string> {
    if queue == [] then files
    else
      var init := queue[..|queue| - 1];
      var written := FallbackWrites(files, fmt, init);
      if Fallback(fmt, init).Failure? then written
      else written[queue[|queue| - 1].location := queue[|queue| - 1].ruby]
  }

  /** A fallback that raises nothing writes exactly the queue's writes. */
  lemma {:induction false} FallbackWritesAll(files: map<string, string>, fmt: Formatter, queue: seq<Proc>)
    requires Fallback(fmt, queue).Success?
    ensures FallbackWrites(files, fmt, queue) == WriteAll(files, queue)
  {
    if queue != [] {
      FallbackWritesAll(files, fmt, queue[..|queue| - 1]);
    }
  }

  /** What `processBatch` returns for a non-empty queue: the reports of the
      slice runs, followed, when a run raised, by the fallback's reports. */
  function Outcome(fmt: Formatter, queue: seq<Proc>): Result<seq<Report>, string> {
    var run := RunBatches(fmt, Batches(queue));
    if !run.threw then Success(run.errors)
    else
      match Fallback(fmt, queue)
      case Failure(e) => Failure(e)
      case Success(es) => Success(run.errors + es)
  }

  /** The files after `processBatch` on a non-empty queue. */
  function After(files: map<string, string>, fmt: Formatter, queue: seq<Proc>): map<string, string> {
    var written := WriteAll(files, queue);
    if RunBatches(fmt, Batches(queue)).threw then FallbackWrites(written, fmt, queue) else written
  }

  /** The reports gathered over some slices are about procs of those slices. */
  lemma {:induction false} RunBatchesSound(fmt: Formatter, bs: seq<seq<Proc>>)
    ensures forall r :: r in RunBatches(fmt, bs).errors ==>
      exists k :: 0 <= k < |Flatten(bs)| && r.file == Flatten(bs)[k].location
  {
    if bs != [] {
      var init := bs[..|bs| - 1];
      var last := bs[|bs| - 1];
      RunBatchesSound(fmt, init);
      FormatSliceSound(fmt, last);
      FlattenSnoc(init, last);
      assert init + [last] == bs;
      forall r | r in RunBatches(fmt, bs).errors
        ensures exists k :: 0 <= k < |Flatten(bs)| && r.file == Flatten(bs)[k].location
      {
        if r in RunBatches(fmt, init).errors {
          var k :| 0 <= k < |Flatten(init)| && r.file == Flatten(init)[k].location;
          assert Flatten(bs)[k] == Flatten(init)[k];
        } else {
          var k :| 0 <= k < |last| && r.file == last[k].location;
          assert Flatten(bs)[|Flatten(init)| + k] == last[k];
        }
      }
    }
  }

  lemma {:induction false} FlattenSnoc(bs: seq<seq<Proc>>, last: seq<Proc>)
    ensures Flatten(bs + [last]) == Flatten(bs) + last
  {
    if bs == [] {
      assert [] + [last] == [last];
      assert Flatten([last]) == last + Flatten([]);
    } else {
      assert (bs + [last])[1..] == bs[1..] + [last];
      FlattenSnoc(bs[1..], last);
    }
  }

  /** Every report `processBatch` returns is filed under the location of a
      queued proc. */
  lemma OutcomeSound(fmt: Formatter, queue: seq<Proc>)
    ensures Outcome(fmt, queue).Success? ==>
      forall r :: r in Outcome(fmt, queue).value ==> exists k :: 0 <= k < |queue| && r.file == queue[k].location
  {
    BatchesCover(queue);
    RunBatchesSound(fmt, Batches(queue));
    FallbackSound(fmt, queue);
  }

  /** When `processBatch` returns, the files hold every queued script at
      its location, the last queued for a location winning. */
  lemma AfterHoldsScripts(files: map<string, string>, fmt: Formatter, queue: seq<Proc>)
    requires Outcome(fmt, queue).Success?
    ensures After(files, fmt, queue) == WriteAll(files, queue)
  {
    if RunBatches(fmt, Batches(queue)).threw {
      FallbackWritesAll(WriteAll(files, queue), fmt, queue);
      WriteAllTwice(files, queue);
    }
  }

  // ---------------------------------------------------------------------------
  // The queue

  /** `StringProcBatch`: the procs queued so far and the flag that guards
      `processBatch` against being entered while it runs. */
  class Batch {
    var procs: seq<Proc>
    var processing: bool

    constructor ()
      ensures procs == [] && !processing
    {
      procs := [];
      processing := false;
    }

    /** `add`: the proc joins the end of the queue. */
    method Add(proc: Proc)
      modifies this
      ensures procs == old(procs) + [proc] && processing == old(processing)
    {
      procs := procs + [proc];
    }

    /** `getBatchInfo`: the queue length, the number of slices and their size. */
    function Info(): (info: (nat, nat, nat))
      reads this
      ensures info.0 == |procs| && info.2 == BatchSize
      ensures info.1 * BatchSize >= |procs| && (|procs| > 0 ==> (info.1 - 1) * BatchSize < |procs|)
      ensures info.1 == 0 <==> procs == []
    {
      BatchCountIsCeiling(|procs|);
      (|procs|, BatchCount(|procs|), BatchSize)
    }

    /** `processBatch`: nothing happens while a run is under way or when the
        queue is empty; otherwise every script is written, the slices are
        formatted in order, and the queue is emptied and the flag lowered
        however the runs end. */
    method ProcessBatch(disk: Files.Disk, fmt: Formatter) returns (r: Result<seq<Report>, string>)
      modifies this, disk
      ensures old(processing) || old(procs) == [] ==>
        r == Success([]) && procs == old(procs) && processing == old(processing) && disk.files == old(disk.files)
      ensures !old(processing) && old(procs) != [] ==>
        && r == Outcome(fmt, old(procs))
        && disk.files == After(old(disk.files), fmt, old(procs))
        && procs == [] && !processing
    {
      var queue := procs;
      if processing || |queue| == 0 {
        return Success([]);
      }
      processing := true;
      WriteQueued(disk, queue);
      var run := RunSlices(fmt, queue);
      if run.threw {
        var fallback := RunFallback(disk, fmt, queue);
        r := if fallback.Failure? then Failure(fallback.error) else Success(run.errors + fallback.value);
      } else {
        r := Success(run.errors);
      }
      procs := [];
      processing := false;
    }
  }

  /** The loop of `processBatch` over the slices: slice `b` is taken from
      the queue by index, and the loop ends after the last slice or at the
      first run that raises. */
  method RunSlices(fmt: Formatter, queue: seq<Proc>) returns (run: Run)
    ensures run == RunBatches(fmt, Batches(queue))
  {
    var totalProcs, totalBatches := |queue|, BatchCount(|queue|);
    ghost var bs := Batches(queue);
    BatchesCover(queue);
    var errors: seq<Report> := [];
    var threw := false;
    var b := 0;
    while b < totalBatches && !threw
      invariant 0 <= b <= totalBatches == |bs|
      invariant RunBatches(fmt, bs[..b]) == Run(errors, threw)
    {
      var start := b * BatchSize;
      var end := Min(start + BatchSize, totalProcs);
      BatchesAreSlices(queue, b);
      var out := FormatSliceRun(fmt, queue[start..end]);
      RunBatchesStep(fmt, bs, b, errors);
      if out.Failure? {
        threw := true;
      } else {
        errors := errors + out.value;
      }
      b := b + 1;
    }
    if threw {
      RunBatchesSticks(fmt, bs, b);
    } else {
      assert bs[..b] == bs;
    }
    return Run(errors, threw);
  }

  lemma RunBatchesStep(fmt: Formatter, bs: seq<seq<Proc>>, b: nat, errors: seq<Report>)
    requires b < |bs| && RunBatches(fmt, bs[..b]) == Run(errors, false)
    ensures RunBatches(fmt, bs[..b + 1]) ==
      match FormatSlice(fmt, bs[b])
      case Failure(_) => Run(errors, true)
      case Success(es) => Run(errors + es, false)
  {
    assert bs[..b + 1][..b] == bs[..b];
  }

  /** `format`: the proc is queued for the batch run instead of being
      formatted at once. */
  method Format(proc: Proc, batch: Batch)
    modifies batch
    ensures batch.procs == old(batch.procs) + [proc] && batch.processing == old(batch.processing)
  {
    batch.Add(proc);
  }

  /** The writes that open `processBatch`, one proc after the other. */
  method WriteQueued(disk: Files.Disk, queue: seq<Proc>)
    modifies disk
    ensures disk.files == WriteAll(old(disk.files), queue)
  {
    var i := 0;
    while i < |queue|
      invariant 0 <= i <= |queue|
      invariant disk.files == WriteAll(old(disk.files), queue[..i])
    {
      assert queue[..i + 1][..i] == queue[..i];
      disk.Write(queue[i].location, queue[i].ruby);
      i := i + 1;
    }
    assert queue[..i] == queue;
  }

  /** One slice's formatter run and the loop over its output lines. */
  method FormatSliceRun(fmt: Formatter, batch: seq<Proc>) returns (r: Result<seq<Report>, string>)
    ensures r == FormatSlice(fmt, batch)
  {
    var stdout := fmt.run(Routes(fmt.route, batch));
    if stdout.Failure? {
      return Failure(stdout.error);
    }
    var errors: seq<Report> := [];
    if |stdout.value| > 0 {
      var lines := Lines(stdout.value);
      var i := 0;
      while i < |lines|
        invariant 0 <= i <= |lines|
        invariant errors == Attribute(lines[..i], batch, fmt.route)
      {
        assert lines[..i + 1][..i] == lines[..i];
        var report := LineReport(lines[i], batch, fmt.route);
        if report.Some? {
          errors := errors + [report.value];
        }
        i := i + 1;
      }
      assert lines[..i] == lines;
    }
    return Success(errors);
  }

  /** The fallback loop: each proc's script written again and formatted on
      its own, in queue order. */
  method RunFallback(disk: Files.Disk, fmt: Formatter, queue: seq<Proc>) returns (r: Result<seq<Report>, string>)
    modifies disk
    ensures r == Fallback(fmt, queue)
    ensures disk.files == FallbackWrites(old(disk.files), fmt, queue)
  {
    ghost var files := disk.files;
    var errors: seq<Report> := [];
    var i := 0;
    while i < |queue|
      invariant 0 <= i <= |queue|
      invariant Fallback(fmt, queue[..i]) == Success(errors)
      invariant disk.files == FallbackWrites(files, fmt, queue[..i])
    {
      FallbackWritesStep(files, fmt, queue, i);
      disk.Write(queue[i].location, queue[i].ruby);
      var out := FormatIndividual(fmt, queue[i]);
      FallbackStep(fmt, queue, i, errors);
      if out.Failure? {
        FallbackSticks(fmt, queue, i + 1);
        FallbackWritesStop(files, fmt, queue, i + 1);
        return Failure(out.error);
      }
      var kept := if out.value.Some? && out.value.value.err != [] then [out.value.value] else [];
      assert Fallback(fmt, queue[..i + 1]) == Success(errors + kept);
      errors := errors + kept;
      i := i + 1;
    }
    assert queue[..i] == queue;
    return Success(errors);
  }

  lemma FallbackStep(fmt: Formatter, queue: seq<Proc>, i: nat, errors: seq<Report>)
    requires i < |queue| && Fallback(fmt, queue[..i]) == Success(errors)
    ensures Fallback(fmt, queue[..i + 1]) ==
      match FormatIndividual(fmt, queue[i])
      case Failure(e) => Failure(e)
      case Success(out) => Success(errors + if out.Some? && out.value.err != [] then [out.value] else [])
  {
    assert queue[..i + 1][..i] == queue[..i];
  }

  lemma FallbackWritesStep(files: map<string, string>, fmt: Formatter, queue: seq<Proc>, i: nat)
    requires i < |queue| && Fallback(fmt, queue[..i]).Success?
    ensures FallbackWrites(files, fmt, queue[..i + 1])
         == FallbackWrites(files, fmt, queue[..i])[queue[i].location := queue[i].ruby]
  {
    assert queue[..i + 1][..i] == queue[..i];
  }

  /** Once a prefix of the fallback raises, the whole fallback raises the same. */
  lemma {:induction false} FallbackSticks(fmt: Formatter, queue: seq<Proc>, n: nat)
    requires n <= |queue| && Fallback(fmt, queue[..n]).Failure?
    ensures Fallback(fmt, queue) == Fallback(fmt, queue[..n])
    decreases |queue|
  {
    if n < |queue| {
      assert queue[..|queue| - 1][..n] == queue[..n];
      FallbackSticks(fmt, queue[..|queue| - 1], n);
    } else {
      assert queue[..n] == queue;
    }
  }

  /** Once a prefix of the fallback raises, no later proc is written again. */
  lemma {:induction false} FallbackWritesStop(files: map<string, string>, fmt: Formatter, queue: seq<Proc>, n: nat)
    requires n <= |queue| && Fallback(fmt, queue[..n]).Failure?
    ensures FallbackWrites(files, fmt, queue) == FallbackWrites(files, fmt, queue[..n])
    decreases |queue|
  {
    if n < |queue| {
      var init := queue[..|queue| - 1];
      assert init[..n] == queue[..n];
      FallbackWritesStop(files, fmt, init, n);
      FallbackSticks(fmt, init, n);
    } else {
      assert queue[..n] == queue;
    }
  }
}
