/** The `git` task: the map database validated, every valid room written to
    the git tree when it is missing or stale, the scripts of the written
    rooms formatted in one batch, and the counts and errors gathered in an
    `Operations` tally. */
module GitSync {
  import opened Wrappers
  import opened Js
  import opened StringProcs
  import opened ProcBatch
  import opened Rooms
  import opened MapdbValidation
  import Files

  /** The tally `git` returns. */
  class Operations {
    var updated: nat
    var skipped: nat
    var created: nat
    var errors: seq<Report>

    constructor (errors: seq<Report>)
      ensures updated == 0 && skipped == 0 && created == 0 && this.errors == errors
    {
      updated, skipped, created := 0, 0, 0;
      this.errors := errors;
    }
  }

  /** The state the upserts thread through: the counts, the git tree and the
      batch queue. */
  datatype Tally = Tally(created: nat, updated: nat, skipped: nat, files: map<string, string>, queue: seq<Proc>)

  /** `upsert` on a room given by its rewritten value and procs: a missing
      room is written and counted as created, a stale one written and
      counted as updated, one that is up to date only counted as skipped;
      an error raised while reading its state is not caught. */
  function Upserted(t: Tally, entry: (Value, seq<Proc>), rt: Runtime): Result<Tally, string> {
    if entry.0.Null? then Failure(ReadError("null", "id"))
    else
    var checksum := rt.checksum(entry.0);
    var file := RoomFile(entry.0);
    var state :- Classify(t.files, rt, checksum, file, entry.1);
    var written := t.files[file := rt.stringify(Envelope(checksum, entry.0))];
    match state
    case Missing => Success(t.(created := t.created + 1, files := written, queue := t.queue + entry.1))
    case Stale => Success(t.(updated := t.updated + 1, files := written, queue := t.queue + entry.1))
    case Ok => Success(t.(skipped := t.skipped + 1))
  }

  /** The loop over the rooms, in order. */
  function UpsertAll(t: Tally, entries: seq<(Value, seq<Proc>)>, rt: Runtime): Result<Tally, string> {
    Loop(UpsertStep(rt), t, entries)
  }

  function UpsertStep(rt: Runtime): (Tally, (Value, seq<Proc>)) -> Result<Tally, string> {
    (t, e) => Upserted(t, e, rt)
  }

  /** Each upsert counts its room exactly once; only a written room queues
      its procs, and a room found up to date leaves the tree and the queue
      as they were. */
  lemma UpsertedCounts(t: Tally, entry: (Value, seq<Proc>), rt: Runtime)
    ensures var r := Upserted(t, entry, rt);
      r.Success? ==>
        && !entry.0.Null?
        && r.value.created + r.value.updated + r.value.skipped == t.created + t.updated + t.skipped + 1
        && (r.value.skipped == t.skipped + 1 ==> r.value.files == t.files && r.value.queue == t.queue)
        && (r.value.skipped == t.skipped ==>
              r.value.files == t.files[RoomFile(entry.0) := rt.stringify(Envelope(rt.checksum(entry.0), entry.0))]
              && r.value.queue == t.queue + entry.1)
  {
  }

  /** A room that is absent from the tree is always created. */
  lemma UpsertedCreates(t: Tally, entry: (Value, seq<Proc>), rt: Runtime)
    requires !entry.0.Null? && RoomFile(entry.0) !in t.files
    ensures Upserted(t, entry, rt).Success? && Upserted(t, entry, rt).value.created == t.created + 1
  {
  }

  /** Over the whole loop every room is counted once, and the queue grows
      only by the procs of the written rooms, in order. */
  lemma {:induction false} UpsertAllCounts(t: Tally, entries: seq<(Value, seq<Proc>)>, rt: Runtime)
    ensures var r := UpsertAll(t, entries, rt);
      r.Success? ==>
        && r.value.created + r.value.updated + r.value.skipped == t.created + t.updated + t.skipped + |entries|
        && |t.queue| <= |r.value.queue|
        && r.value.queue[..|t.queue|] == t.queue
  {
    if entries != [] {
      var init := entries[..|entries| - 1];
      UpsertAllCounts(t, init, rt);
      var done := UpsertAll(t, init, rt);
      if done.Success? {
        UpsertedCounts(done.value, entries[|entries| - 1], rt);
        var r := UpsertAll(t, entries, rt);
        if r.Success? {
          assert r.value.queue[..|t.queue|] == done.value.queue[..|t.queue|];
        }
      }
    }
  }

  /** What `git` reports for a room that failed validation. */
  function InvalidReport(e: Invalid): Report {
    Report(e.error, "rooms/" + TemplateOf(e.id) + "/room.json")
  }

  function InvalidReports(es: seq<Invalid>): seq<Report> {
    seq(|es|, i requires 0 <= i < |es| => InvalidReport(es[i]))
  }

  /** `config.inputFile || project.route("/map.json")` */
  function MapPath(inputFile: Option<string>, mapRoute: string): string {
    if Given(inputFile) then inputFile.value else mapRoute
  }

  /** The tree once the map has been fetched: only when no input file is
      given and the map is not there yet. */
  function Prepared(files: map<string, string>, inputFile: Option<string>, mapRoute: string, fetched: string)
    : map<string, string>
  {
    if !Given(inputFile) && mapRoute !in files then files[mapRoute := fetched] else files
  }

  /** The map is fetched exactly when no input file is given and the map is
      absent; afterwards the map is present unless an input file is given,
      and nothing else in the tree changes. */
  lemma PreparedFetchesOnlyMissing(files: map<string, string>, inputFile: Option<string>, mapRoute: string,
                                   fetched: string)
    ensures var r := Prepared(files, inputFile, mapRoute, fetched);
      && (r == files <==> Given(inputFile) || mapRoute in files)
      && (!Given(inputFile) ==> mapRoute in r)
      && forall p :: p != mapRoute ==> (p in r <==> p in files) && (p in files ==> r[p] == files[p])
  {
  }

  /** The outcome of `git`: the final counts and errors, the tree and the
      queue left behind, from the tree, the queue and the batch's
      `processing` flag it starts with. */
  datatype Synced = Synced(created: nat, updated: nat, skipped: nat, errors: seq<Report>,
                           files: map<string, string>, queue: seq<Proc>)

  function Sync(files: map<string, string>, queue: seq<Proc>, processing: bool, fmt: Formatter, rt: Runtime,
                inputFile: Option<string>, mapRoute: string, fetched: string): Result<Synced, string>
  {
    SyncFrom(Prepared(files, inputFile, mapRoute, fetched), MapPath(inputFile, mapRoute), queue, processing, fmt, rt)
  }

  /** `git` once the map is in place. */
  function SyncFrom(files: map<string, string>, path: string, queue: seq<Proc>, processing: bool,
                    fmt: Formatter, rt: Runtime): Result<Synced, string>
  {
    var valid :- Validation(files, path, rt);
    var t :- UpsertAll(Tally(0, 0, 0, files, queue), valid.0, rt);
    Finished(t, InvalidReports(valid.1), processing, fmt)
  }

  /** The end of `git`: the batch processed, unless it is busy or empty, and
      its errors appended to those gathered so far. */
  function Finished(t: Tally, errors: seq<Report>, processing: bool, fmt: Formatter): Result<Synced, string> {
    if processing || t.queue == [] then
      Success(Synced(t.created, t.updated, t.skipped, errors, t.files, t.queue))
    else
      var batchErrors :- Outcome(fmt, t.queue);
      Success(Synced(t.created, t.updated, t.skipped, errors + batchErrors, After(t.files, fmt, t.queue), []))
  }

  /** The end of `git` keeps the counts, keeps the errors gathered so far
      in front, and empties the queue when the batch is not busy. */
  lemma FinishedKeeps(t: Tally, errors: seq<Report>, processing: bool, fmt: Formatter)
    ensures var r := Finished(t, errors, processing, fmt);
      r.Success? ==>
        && r.value.created == t.created && r.value.updated == t.updated && r.value.skipped == t.skipped
        && |errors| <= |r.value.errors| && r.value.errors[..|errors|] == errors
        && (!processing ==> r.value.queue == [])
  {
    var r := Finished(t, errors, processing, fmt);
    if r.Success? && !(processing || t.queue == []) {
      assert r.value.errors[..|errors|] == errors;
    }
  }

  /** A completed `git` counts every valid room once, reports every invalid
      room first, and, when the batch was not busy, leaves the queue empty. */
  lemma SyncAccounts(files: map<string, string>, path: string, queue: seq<Proc>, processing: bool,
                     fmt: Formatter, rt: Runtime)
    ensures var r := SyncFrom(files, path, queue, processing, fmt, rt);
      var valid := Validation(files, path, rt);
      r.Success? ==>
        && valid.Success?
        && r.value.created + r.value.updated + r.value.skipped == |valid.value.0|
        && |valid.value.1| <= |r.value.errors|
        && (forall i :: 0 <= i < |valid.value.1| ==> r.value.errors[i] == InvalidReport(valid.value.1[i]))
        && (!processing ==> r.value.queue == [])
  {
    var valid := Validation(files, path, rt);
    if valid.Success? {
      var start := Tally(0, 0, 0, files, queue);
      UpsertAllCounts(start, valid.value.0, rt);
      var t := UpsertAll(start, valid.value.0, rt);
      if t.Success? {
        var reports := InvalidReports(valid.value.1);
        FinishedKeeps(t.value, reports, processing, fmt);
        var r := Finished(t.value, reports, processing, fmt);
        if r.Success? {
          forall i | 0 <= i < |valid.value.1| ensures r.value.errors[i] == InvalidReport(valid.value.1[i]) {
            assert r.value.errors[i] == r.value.errors[..|reports|][i];
          }
        }
      }
    }
  }

  /** `upsert` */
  method Upsert(room: Room, disk: Files.Disk, batch: Batch, ops: Operations, rt: Runtime)
    returns (r: Result<(), string>)
    requires room.memo == None && room.Derived(rt)
    modifies room, disk, batch, ops
    ensures var spec := Upserted(Tally(old(ops.created), old(ops.updated), old(ops.skipped), old(disk.files),
                                       old(batch.procs)), (room.validated, room.stringprocs), rt);
      && (spec.Failure? ==> r == Failure(spec.error))
      && (spec.Success? ==>
            && r.Success?
            && ops.created == spec.value.created && ops.updated == spec.value.updated
            && ops.skipped == spec.value.skipped
            && disk.files == spec.value.files && batch.procs == spec.value.queue)
    ensures batch.processing == old(batch.processing) && ops.errors == old(ops.errors)
  {
    var state := room.GetState(disk, rt);
    if state.Failure? {
      return Failure(state.error);
    }
    match state.value {
      case Missing =>
        var written := room.Write(disk, batch, rt);
        ops.created := ops.created + 1;
      case Stale =>
        var written := room.Write(disk, batch, rt);
        ops.updated := ops.updated + 1;
      case Ok =>
        ops.skipped := ops.skipped + 1;
    }
    return Success(());
  }

  /** The `for` loop of `git` over the validated rooms. */
  method UpsertRooms(rooms: seq<Room>, ghost entries: seq<(Value, seq<Proc>)>, disk: Files.Disk, batch: Batch,
                     ops: Operations, rt: Runtime) returns (r: Result<(), string>)
    requires BuiltFrom(rooms, entries, rt)
    modifies set i | 0 <= i < |rooms| :: rooms[i]
    modifies disk, batch, ops
    ensures var spec := UpsertAll(Tally(old(ops.created), old(ops.updated), old(ops.skipped), old(disk.files),
                                        old(batch.procs)), entries, rt);
      && (spec.Failure? ==> r == Failure(spec.error))
      && (spec.Success? ==>
            && r.Success?
            && ops.created == spec.value.created && ops.updated == spec.value.updated
            && ops.skipped == spec.value.skipped
            && disk.files == spec.value.files && batch.procs == spec.value.queue)
    ensures batch.processing == old(batch.processing) && ops.errors == old(ops.errors)
  {
    ghost var start := Tally(ops.created, ops.updated, ops.skipped, disk.files, batch.procs);
    var i := 0;
    while i < |rooms|
      invariant 0 <= i <= |rooms|
      invariant forall j :: i <= j < |rooms| ==> rooms[j].memo == None
      invariant UpsertAll(start, entries[..i], rt)
             == Success(Tally(ops.created, ops.updated, ops.skipped, disk.files, batch.procs))
      invariant batch.processing == old(batch.processing) && ops.errors == old(ops.errors)
    {
      var step := UpsertAt(rooms[i], i, entries, start, disk, batch, ops, rt);
      if step.Failure? {
        return step;
      }
      i := i + 1;
    }
    assert entries[..i] == entries;
    return Success(());
  }

  /** One turn of the loop over the rooms: the `i`-th room upserted, which
      either extends the tally over the first `i` entries by one or fails
      the whole loop. */
  method UpsertAt(room: Room, i: nat, ghost entries: seq<(Value, seq<Proc>)>, ghost start: Tally,
                  disk: Files.Disk, batch: Batch, ops: Operations, rt: Runtime) returns (r: Result<(), string>)
    requires i < |entries| && entries[i] == (room.validated, room.stringprocs)
    requires room.memo == None && room.Derived(rt)
    requires UpsertAll(start, entries[..i], rt)
          == Success(Tally(ops.created, ops.updated, ops.skipped, disk.files, batch.procs))
    modifies room, disk, batch, ops
    ensures r.Failure? ==> UpsertAll(start, entries, rt) == Failure(r.error)
    ensures r.Success? ==>
      UpsertAll(start, entries[..i + 1], rt)
        == Success(Tally(ops.created, ops.updated, ops.skipped, disk.files, batch.procs))
    ensures batch.processing == old(batch.processing) && ops.errors == old(ops.errors)
  {
    LoopStep(UpsertStep(rt), start, entries, i);
    r := Upsert(room, disk, batch, ops, rt);
    if r.Failure? {
      LoopStops(UpsertStep(rt), start, entries, i);
    }
  }

  /** `git`: the map fetched when no input file is given and none is
      present, then the rest of the task on it. */
  method Git(disk: Files.Disk, batch: Batch, fmt: Formatter, rt: Runtime,
             inputFile: Option<string>, mapRoute: string, fetched: string)
    returns (r: Result<Operations, string>)
    modifies disk, batch
    ensures var spec := Sync(old(disk.files), old(batch.procs), old(batch.processing), fmt, rt,
                             inputFile, mapRoute, fetched);
      && (spec.Failure? ==> r == Failure(spec.error))
      && (spec.Success? ==>
            && r.Success?
            && r.value.created == spec.value.created && r.value.updated == spec.value.updated
            && r.value.skipped == spec.value.skipped && r.value.errors == spec.value.errors
            && disk.files == spec.value.files && batch.procs == spec.value.queue)
  {
    if !Given(inputFile) && mapRoute !in disk.files {
      disk.Write(mapRoute, fetched);
    }
    r := GitFrom(disk, batch, fmt, rt, MapPath(inputFile, mapRoute));
  }

  /** The rooms validated, the valid ones upserted, then the batch processed
      and its errors appended. */
  method GitFrom(disk: Files.Disk, batch: Batch, fmt: Formatter, rt: Runtime, path: string)
    returns (r: Result<Operations, string>)
    modifies disk, batch
    ensures var spec := SyncFrom(old(disk.files), path, old(batch.procs), old(batch.processing), fmt, rt);
      && (spec.Failure? ==> r == Failure(spec.error))
      && (spec.Success? ==>
            && r.Success?
            && r.value.created == spec.value.created && r.value.updated == spec.value.updated
            && r.value.skipped == spec.value.skipped && r.value.errors == spec.value.errors
            && disk.files == spec.value.files && batch.procs == spec.value.queue)
  {
    var checked := ValidateMapdb(disk.files, path, rt);
    if checked.Failure? {
      return Failure(checked.error);
    }
    ghost var valid := Validation(disk.files, path, rt).value;
    var ops := new Operations(InvalidReports(checked.value.1));
    var upserted := UpsertRooms(checked.value.0, valid.0, disk, batch, ops, rt);
    if upserted.Failure? {
      return Failure(upserted.error);
    }
    r := FinishBatch(disk, batch, fmt, ops);
  }

  /** `processBatchedStringProcs`, its errors appended to the tally. */
  method FinishBatch(disk: Files.Disk, batch: Batch, fmt: Formatter, ops: Operations)
    returns (r: Result<Operations, string>)
    modifies disk, batch, ops
    ensures var spec := Finished(Tally(old(ops.created), old(ops.updated), old(ops.skipped), old(disk.files),
                                       old(batch.procs)), old(ops.errors), old(batch.processing), fmt);
      && (spec.Failure? ==> r == Failure(spec.error))
      && (spec.Success? ==>
            && r == Success(ops)
            && ops.created == spec.value.created && ops.updated == spec.value.updated
            && ops.skipped == spec.value.skipped && ops.errors == spec.value.errors
            && disk.files == spec.value.files && batch.procs == spec.value.queue)
  {
    var batchErrors := batch.ProcessBatch(disk, fmt);
    if batchErrors.Failure? {
      return Failure(batchErrors.error);
    }
    ops.errors := ops.errors + batchErrors.value;
    return Success(ops);
  }
}
