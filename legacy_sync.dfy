/** The `git` task of the older snapshot under `mapdb/`: the map fetched
    when `/map.json` is absent, then every validated room written when it is
    missing or stale, its scripts formatted as it is written, and the
    formatter's reports appended to the validation errors as they come.

    The task's own validation step returns nothing, so the validated rooms
    and the validation errors are inputs here; so is the outcome of the
    fetch, whose arguments the task does not supply. */
module LegacySync {
  import opened Wrappers
  import opened Js
  import opened LegacyStringProcs
  import opened LegacyRooms
  import Rooms
  import ProcBatch
  import MapdbValidation
  import GitSync
  import Files

  const MapJson := "/map.json"

  /** What the pass needs of a room: its checksum, its file, its rewritten
      value and its scripts. */
  datatype Stored = Stored(checksum: string, file: string, room: Value, procs: seq<Proc>)

  function Facts(room: Room): Stored {
    Stored(room.checksum, room.file, room.validated, room.stringprocs)
  }

  function AllFacts(rooms: seq<Room>): (r: seq<Stored>)
    ensures |r| == |rooms| && forall i :: 0 <= i < |rooms| ==> r[i] == Facts(rooms[i])
  {
    seq(|rooms|, i requires 0 <= i < |rooms| => Facts(rooms[i]))
  }

  /** The state the upserts thread through: the counts, the errors and the
      git tree. */
  datatype Tally = Tally(created: nat, updated: nat, skipped: nat, errors: seq<Report>, files: map<string, string>)

  /** `upsert`: a missing room is written and counted as created, a stale
      one written and counted as updated, and the formatter's reports of the
      write appended to the errors; a room that is up to date is only
      counted as skipped. An error raised while reading the state or
      running the formatter is not caught. */
  function Upserted(t: Tally, s: Stored, fmt: ProcBatch.Formatter, rt: Runtime): Result<Tally, string> {
    var state :- ClassifyByChecksum(t.files, rt, s.checksum, s.file);
    var base := t.files[s.file := rt.stringify(Rooms.Envelope(s.checksum, s.room))];
    match state
    case Missing =>
      var reports :- FormatAll(fmt, s.procs);
      Success(t.(created := t.created + 1, errors := t.errors + reports, files := FormatWrites(base, fmt, s.procs)))
    case Stale =>
      var reports :- FormatAll(fmt, s.procs);
      Success(t.(updated := t.updated + 1, errors := t.errors + reports, files := FormatWrites(base, fmt, s.procs)))
    case Ok =>
      Success(t.(skipped := t.skipped + 1))
  }

  function UpsertStep(fmt: ProcBatch.Formatter, rt: Runtime): (Tally, Stored) -> Result<Tally, string> {
    (t, s) => Upserted(t, s, fmt, rt)
  }

  /** The loop over the rooms, in order. */
  function UpsertAll(t: Tally, rooms: seq<Stored>, fmt: ProcBatch.Formatter, rt: Runtime): Result<Tally, string> {
    Loop(UpsertStep(fmt, rt), t, rooms)
  }

  /** Each upsert counts its room exactly once; a skipped room leaves the
      errors and the tree as they were, and a written room appends exactly
      the reports of formatting its scripts. */
  lemma UpsertedCounts(t: Tally, s: Stored, fmt: ProcBatch.Formatter, rt: Runtime)
    ensures var r := Upserted(t, s, fmt, rt);
      r.Success? ==>
        && r.value.created + r.value.updated + r.value.skipped == t.created + t.updated + t.skipped + 1
        && (r.value.skipped == t.skipped + 1 ==> r.value.errors == t.errors && r.value.files == t.files)
        && (r.value.skipped == t.skipped ==>
              && FormatAll(fmt, s.procs).Success?
              && r.value.errors == t.errors + FormatAll(fmt, s.procs).value)
  {
  }

  /** A room absent from the tree is created, unless formatting its
      scripts raises. */
  lemma UpsertedCreates(t: Tally, s: Stored, fmt: ProcBatch.Formatter, rt: Runtime)
    requires s.file !in t.files && FormatAll(fmt, s.procs).Success?
    ensures Upserted(t, s, fmt, rt).Success? && Upserted(t, s, fmt, rt).value.created == t.created + 1
  {
  }

  /** Over the whole loop every room is counted once, and the errors only
      grow at their end. */
  lemma {:induction false} UpsertAllCounts(t: Tally, rooms: seq<Stored>, fmt: ProcBatch.Formatter, rt: Runtime)
    ensures var r := UpsertAll(t, rooms, fmt, rt);
      r.Success? ==>
        && r.value.created + r.value.updated + r.value.skipped == t.created + t.updated + t.skipped + |rooms|
        && |t.errors| <= |r.value.errors|
        && r.value.errors[..|t.errors|] == t.errors
    decreases |rooms|
  {
    if rooms != [] {
      var init := rooms[..|rooms| - 1];
      UpsertAllCounts(t, init, fmt, rt);
      var done := UpsertAll(t, init, fmt, rt);
      if done.Success? {
        UpsertedCounts(done.value, rooms[|rooms| - 1], fmt, rt);
        var r := UpsertAll(t, rooms, fmt, rt);
        if r.Success? {
          assert r.value.errors[..|t.errors|] == done.value.errors[..|t.errors|];
        }
      }
    }
  }

  /** The tree once the map is in place: fetched only when `/map.json` is
      absent; a failed fetch raises. */
  function Prepared(files: map<string, string>, fetched: Result<string, string>): Result<map<string, string>, string> {
    if MapJson in files then Success(files)
    else
      var text :- fetched;
      Success(files[MapJson := text])
  }

  /** The map is fetched exactly when it is absent, and nothing else in the
      tree changes. */
  lemma PreparedFetchesOnlyMissing(files: map<string, string>, fetched: Result<string, string>)
    ensures var r := Prepared(files, fetched);
      r.Success? ==>
        && MapJson in r.value
        && (r.value == files <==> MapJson in files)
        && forall p :: p != MapJson ==> (p in r.value <==> p in files) && (p in files ==> r.value[p] == files[p])
  {
  }

  /** `git`: the map fetched if need be, then the rooms upserted from a
      tally whose errors are those of validation. */
  function Sync(files: map<string, string>, fetched: Result<string, string>, invalid: seq<MapdbValidation.Invalid>,
                rooms: seq<Stored>, fmt: ProcBatch.Formatter, rt: Runtime): Result<Tally, string>
  {
    var prepared :- Prepared(files, fetched);
    UpsertAll(Tally(0, 0, 0, GitSync.InvalidReports(invalid), prepared), rooms, fmt, rt)
  }

  /** A completed `git` counts every room once, lists the validation errors
      first, one per invalid room and in order, and leaves the map in
      place. */
  lemma SyncAccounts(files: map<string, string>, fetched: Result<string, string>,
                     invalid: seq<MapdbValidation.Invalid>, rooms: seq<Stored>,
                     fmt: ProcBatch.Formatter, rt: Runtime)
    ensures var r := Sync(files, fetched, invalid, rooms, fmt, rt);
      r.Success? ==>
        && r.value.created + r.value.updated + r.value.skipped == |rooms|
        && |invalid| <= |r.value.errors|
        && (forall i :: 0 <= i < |invalid| ==> r.value.errors[i] == GitSync.InvalidReport(invalid[i]))
        && Prepared(files, fetched).Success?
  {
    var prepared := Prepared(files, fetched);
    if prepared.Success? {
      var start := Tally(0, 0, 0, GitSync.InvalidReports(invalid), prepared.value);
      UpsertAllCounts(start, rooms, fmt, rt);
      var r := UpsertAll(start, rooms, fmt, rt);
      if r.Success? {
        forall i | 0 <= i < |invalid| ensures r.value.errors[i] == GitSync.InvalidReport(invalid[i]) {
          assert r.value.errors[i] == r.value.errors[..|invalid|][i];
        }
      }
    }
  }

  /** `upsert` */
  method Upsert(room: Room, disk: Files.Disk, fmt: ProcBatch.Formatter, ops: GitSync.Operations, rt: Runtime)
    returns (r: Result<(), string>)
    requires room.memo == None
    modifies room, disk, ops
    ensures var spec := Upserted(Tally(old(ops.created), old(ops.updated), old(ops.skipped), old(ops.errors),
                                       old(disk.files)), Facts(room), fmt, rt);
      && (spec.Failure? ==> r == Failure(spec.error))
      && (spec.Success? ==>
            && r.Success?
            && ops.created == spec.value.created && ops.updated == spec.value.updated
            && ops.skipped == spec.value.skipped && ops.errors == spec.value.errors
            && disk.files == spec.value.files)
  {
    var state := room.GetState(disk, rt);
    if state.Failure? {
      return Failure(state.error);
    }
    match state.value {
      case Missing =>
        var create := room.Write(disk, fmt, rt);
        if create.Failure? {
          return Failure(create.error);
        }
        ops.errors := ops.errors + create.value;
        ops.created := ops.created + 1;
      case Stale =>
        var update := room.Write(disk, fmt, rt);
        if update.Failure? {
          return Failure(update.error);
        }
        ops.errors := ops.errors + update.value;
        ops.updated := ops.updated + 1;
      case Ok =>
        ops.skipped := ops.skipped + 1;
    }
    return Success(());
  }

  /** The rooms of the pass: each its own object, none looked at yet. */
  ghost predicate Fresh(rooms: seq<Room>)
    reads rooms
  {
    && (forall i :: 0 <= i < |rooms| ==> rooms[i].memo == None)
    && (forall i, j :: 0 <= i < j < |rooms| ==> rooms[i] != rooms[j])
  }

  /** One turn of the loop over the rooms: the `i`-th room upserted, which
      either extends the tally over the first `i` rooms by one or fails the
      whole loop. */
  method UpsertAt(room: Room, i: nat, ghost stored: seq<Stored>, ghost start: Tally,
                  disk: Files.Disk, fmt: ProcBatch.Formatter, ops: GitSync.Operations, rt: Runtime)
    returns (r: Result<(), string>)
    requires i < |stored| && stored[i] == Facts(room) && room.memo == None
    requires UpsertAll(start, stored[..i], fmt, rt)
          == Success(Tally(ops.created, ops.updated, ops.skipped, ops.errors, disk.files))
    modifies room, disk, ops
    ensures r.Failure? ==> UpsertAll(start, stored, fmt, rt) == Failure(r.error)
    ensures r.Success? ==>
      UpsertAll(start, stored[..i + 1], fmt, rt)
        == Success(Tally(ops.created, ops.updated, ops.skipped, ops.errors, disk.files))
  {
    LoopStep(UpsertStep(fmt, rt), start, stored, i);
    r := Upsert(room, disk, fmt, ops, rt);
    if r.Failure? {
      LoopStops(UpsertStep(fmt, rt), start, stored, i);
    }
  }

  /** The `for` loop of `git` over the rooms. */
  method UpsertRooms(rooms: seq<Room>, disk: Files.Disk, fmt: ProcBatch.Formatter, ops: GitSync.Operations,
                     rt: Runtime) returns (r: Result<(), string>)
    requires Fresh(rooms)
    modifies set i | 0 <= i < |rooms| :: rooms[i]
    modifies disk, ops
    ensures var spec := UpsertAll(Tally(old(ops.created), old(ops.updated), old(ops.skipped), old(ops.errors),
                                        old(disk.files)), AllFacts(rooms), fmt, rt);
      && (spec.Failure? ==> r == Failure(spec.error))
      && (spec.Success? ==>
            && r.Success?
            && ops.created == spec.value.created && ops.updated == spec.value.updated
            && ops.skipped == spec.value.skipped && ops.errors == spec.value.errors
            && disk.files == spec.value.files)
  {
    ghost var stored := AllFacts(rooms);
    ghost var start := Tally(ops.created, ops.updated, ops.skipped, ops.errors, disk.files);
    var i := 0;
    while i < |rooms|
      invariant 0 <= i <= |rooms|
      invariant forall j :: i <= j < |rooms| ==> rooms[j].memo == None
      invariant UpsertAll(start, stored[..i], fmt, rt)
             == Success(Tally(ops.created, ops.updated, ops.skipped, ops.errors, disk.files))
    {
      var step := UpsertAt(rooms[i], i, stored, start, disk, fmt, ops, rt);
      if step.Failure? {
        return step;
      }
      i := i + 1;
    }
    assert stored[..i] == stored;
    return Success(());
  }

  /** `git` */
  method Git(disk: Files.Disk, fmt: ProcBatch.Formatter, rt: Runtime, fetched: Result<string, string>,
             invalid: seq<MapdbValidation.Invalid>, rooms: seq<Room>)
    returns (r: Result<GitSync.Operations, string>)
    requires Fresh(rooms)
    modifies set i | 0 <= i < |rooms| :: rooms[i]
    modifies disk
    ensures var spec := Sync(old(disk.files), fetched, invalid, AllFacts(rooms), fmt, rt);
      && (spec.Failure? ==> r == Failure(spec.error))
      && (spec.Success? ==>
            && r.Success?
            && r.value.created == spec.value.created && r.value.updated == spec.value.updated
            && r.value.skipped == spec.value.skipped && r.value.errors == spec.value.errors
            && disk.files == spec.value.files)
  {
    if MapJson !in disk.files {
      if fetched.Failure? {
        return Failure(fetched.error);
      }
      disk.Write(MapJson, fetched.value);
    }
    var ops := new GitSync.Operations(GitSync.InvalidReports(invalid));
    var done := UpsertRooms(rooms, disk, fmt, ops, rt);
    if done.Failure? {
      return Failure(done.error);
    }
    return Success(ops);
  }
}
