/** The room of the older snapshot under `mapdb/`: its checksum is taken
    before its scripts are rewritten, `getState` looks only at the stored
    checksum, and `write` formats every script on the spot and returns the
    reports that carry text. */
module LegacyRooms {
  import opened Wrappers
  import opened Js
  import opened LegacyStringProcs
  import opened Rooms
  import StringProcs
  import ProcBatch
  import Files

  /** `getState` decided on the files: no stored file is `Missing`; a stored
      file that does not parse, or parses to `null`, raises; otherwise the
      room is `Ok` when the stored checksum is the room's and `Stale` when
      it is not. No script file is looked at. */
  function ClassifyByChecksum(files: map<string, string>, rt: Runtime, checksum: string, file: string)
    : Result<State, string>
  {
    if file !in files then Success(Missing)
    else
      var disk :- rt.parse(files[file]);
      var stored :- Prop(disk, "checksum");
      Success(if stored == Some(Str(checksum)) then Ok else Stale)
  }

  /** The older decision is the current one for a room without scripts. For
      a room with scripts the two agree except where the current one finds
      a script file missing: the older one then answers `Ok`, the current
      one `Stale`. */
  lemma ClassifyIgnoresScripts(files: map<string, string>, rt: Runtime, checksum: string, file: string,
                               procs: seq<StringProcs.Proc>)
    ensures ClassifyByChecksum(files, rt, checksum, file) == Rooms.Classify(files, rt, checksum, file, [])
    ensures ClassifyByChecksum(files, rt, checksum, file) != Success(Ok) ==>
      ClassifyByChecksum(files, rt, checksum, file) == Rooms.Classify(files, rt, checksum, file, procs)
    ensures Rooms.Classify(files, rt, checksum, file, procs) == Success(Ok) ==>
      ClassifyByChecksum(files, rt, checksum, file) == Success(Ok)
    ensures ClassifyByChecksum(files, rt, checksum, file) == Success(Ok) ==>
      ((exists k :: 0 <= k < |procs| && procs[k].location !in files) <==>
         Rooms.Classify(files, rt, checksum, file, procs) == Success(Stale))
  {
  }

  /** A stored envelope reads back as `Ok` exactly when it carries the
      checksum asked about, and as `Stale` otherwise. */
  lemma StoredState(files: map<string, string>, rt: Runtime, stored: string, room: Value, checksum: string,
                    file: string)
    requires RoundTrips(rt) && Canonical(room)
    requires file in files && files[file] == rt.stringify(Envelope(stored, room))
    ensures ClassifyByChecksum(files, rt, checksum, file) == Success(if stored == checksum then Ok else Stale)
  {
    var env := Envelope(stored, room);
    Rooms.EnvelopeCanonical(stored, room);
    assert rt.parse(rt.stringify(env)) == Success(env);
  }

  /** The older tree as the current `getState` sees it: the older room
      stores the checksum of the room before its rewrite beside the
      rewritten room; the older `getState` reads that back as `Ok`, while
      the current one, which checksums the rewritten room, reads it as
      `Stale` wherever the two checksums differ. */
  lemma ChecksumBeforeRewrite(files: map<string, string>, rt: Runtime, original: Value, rewritten: Value,
                              file: string, procs: seq<StringProcs.Proc>)
    requires RoundTrips(rt) && Canonical(rewritten)
    requires file in files && files[file] == rt.stringify(Envelope(rt.checksum(original), rewritten))
    ensures ClassifyByChecksum(files, rt, rt.checksum(original), file) == Success(Ok)
    ensures rt.checksum(original) != rt.checksum(rewritten) ==>
      Rooms.Classify(files, rt, rt.checksum(rewritten), file, procs) == Success(Stale)
  {
    StoredState(files, rt, rt.checksum(original), rewritten, rt.checksum(original), file);
    var env := Envelope(rt.checksum(original), rewritten);
    Rooms.EnvelopeCanonical(rt.checksum(original), rewritten);
    assert rt.parse(rt.stringify(env)) == Success(env);
  }

  // ---------------------------------------------------------------------------
  // Formatting every script of a room

  /** The reports of `write`: each script formatted in order, a report kept
      when its text is not empty; a formatter that fails to run raises. */
  function FormatAll(fmt: ProcBatch.Formatter, procs: seq<Proc>): Result<seq<Report>, string> {
    if procs == [] then Success([])
    else
      var done :- FormatAll(fmt, procs[..|procs| - 1]);
      var out :- ProcBatch.FormatFile(fmt, procs[|procs| - 1].location);
      Success(done + if out.Some? && out.value.err != [] then [out.value] else [])
  }

  /** The files as `write` leaves them: each script written before its run,
      up to the run that raises. */
  function FormatWrites(files: map<string, string>, fmt: ProcBatch.Formatter, procs: seq<Proc>)
    : map<string, string>
  {
    if procs == [] then files
    else
      var init := procs[..|procs| - 1];
      var written := FormatWrites(files, fmt, init);
      if FormatAll(fmt, init).Failure? then written
      else written[procs[|procs| - 1].location := procs[|procs| - 1].ruby]
  }

  /** Formatting each script on the spot reports exactly what the current
      batch's one-by-one fallback reports for the same scripts. */
  lemma {:induction false} FormatAllIsFallback(fmt: ProcBatch.Formatter, procs: seq<StringProcs.Proc>)
    ensures FormatAll(fmt, Legacies(procs)) == ProcBatch.Fallback(fmt, procs)
    decreases |procs|
  {
    if procs != [] {
      var init := procs[..|procs| - 1];
      FormatAllIsFallback(fmt, init);
      assert Legacies(procs)[..|procs| - 1] == Legacies(init);
    }
  }

  /** ... and writes exactly what the fallback writes. */
  lemma {:induction false} FormatWritesIsFallback(files: map<string, string>, fmt: ProcBatch.Formatter,
                                                  procs: seq<StringProcs.Proc>)
    ensures FormatWrites(files, fmt, Legacies(procs)) == ProcBatch.FallbackWrites(files, fmt, procs)
    decreases |procs|
  {
    if procs != [] {
      var init := procs[..|procs| - 1];
      FormatWritesIsFallback(files, fmt, init);
      FormatAllIsFallback(fmt, init);
      assert Legacies(procs)[..|procs| - 1] == Legacies(init);
    }
  }

  /** Every report names the location of one of the scripts and carries
      text, and there are at most as many reports as scripts. */
  lemma {:induction false} FormatAllSound(fmt: ProcBatch.Formatter, procs: seq<Proc>)
    ensures var r := FormatAll(fmt, procs);
      r.Success? ==>
        && |r.value| <= |procs|
        && forall e :: e in r.value ==> e.err != [] && exists k :: 0 <= k < |procs| && e.file == procs[k].location
    decreases |procs|
  {
    if procs != [] {
      var init := procs[..|procs| - 1];
      FormatAllSound(fmt, init);
      var r := FormatAll(fmt, procs);
      if r.Success? {
        forall e | e in r.value
          ensures e.err != [] && exists k :: 0 <= k < |procs| && e.file == procs[k].location
        {
          if e in FormatAll(fmt, init).value {
            var k :| 0 <= k < |init| && e.file == init[k].location;
            assert procs[k] == init[k];
          } else {
            assert e.file == procs[|procs| - 1].location;
          }
        }
      }
    }
  }

  /** After a `write` that raises nothing every script is on disk. */
  lemma {:induction false} FormatWritesReach(files: map<string, string>, fmt: ProcBatch.Formatter, procs: seq<Proc>)
    requires FormatAll(fmt, procs).Success?
    ensures forall k :: 0 <= k < |procs| ==> procs[k].location in FormatWrites(files, fmt, procs)
    decreases |procs|
  {
    if procs != [] {
      var init := procs[..|procs| - 1];
      FormatWritesReach(files, fmt, init);
      forall k | 0 <= k < |procs| ensures procs[k].location in FormatWrites(files, fmt, procs) {
        if k < |init| {
          assert procs[k] == init[k];
        }
      }
    }
  }

  /** One more script is one more write and one more run. */
  lemma FormatStep(files: map<string, string>, fmt: ProcBatch.Formatter, procs: seq<Proc>, i: nat)
    requires i < |procs| && FormatAll(fmt, procs[..i]).Success?
    ensures FormatWrites(files, fmt, procs[..i + 1])
         == FormatWrites(files, fmt, procs[..i])[procs[i].location := procs[i].ruby]
    ensures var out := ProcBatch.FormatFile(fmt, procs[i].location);
      && (out.Failure? ==> FormatAll(fmt, procs[..i + 1]) == Failure(out.error))
      && (out.Success? ==>
            FormatAll(fmt, procs[..i + 1])
              == Success(FormatAll(fmt, procs[..i]).value
                   + if out.value.Some? && out.value.value.err != [] then [out.value.value] else []))
  {
    assert procs[..i + 1][..i] == procs[..i];
  }

  /** Once a run raises, nothing after it is written or reported. */
  lemma {:induction false} FormatSticks(files: map<string, string>, fmt: ProcBatch.Formatter, procs: seq<Proc>, n: nat)
    requires n <= |procs| && FormatAll(fmt, procs[..n]).Failure?
    ensures FormatAll(fmt, procs) == FormatAll(fmt, procs[..n])
    ensures FormatWrites(files, fmt, procs) == FormatWrites(files, fmt, procs[..n])
    decreases |procs|
  {
    if n < |procs| {
      assert procs[..|procs| - 1][..n] == procs[..n];
      FormatSticks(files, fmt, procs[..|procs| - 1], n);
    } else {
      assert procs[..n] == procs;
    }
  }

  /** One turn of the loop of `write`: the `i`-th script formatted, which
      either extends the reports and writes over the first `i` scripts by
      one, or ends them with its error. */
  method FormatAt(disk: Files.Disk, fmt: ProcBatch.Formatter, procs: seq<Proc>, i: nat,
                  ghost base: map<string, string>, errors: seq<Report>) returns (r: Result<seq<Report>, string>)
    requires i < |procs|
    requires FormatAll(fmt, procs[..i]) == Success(errors)
    requires disk.files == FormatWrites(base, fmt, procs[..i])
    modifies disk
    ensures r.Failure? ==> r == FormatAll(fmt, procs) && disk.files == FormatWrites(base, fmt, procs)
    ensures r.Success? ==> r == FormatAll(fmt, procs[..i + 1]) && disk.files == FormatWrites(base, fmt, procs[..i + 1])
  {
    FormatStep(base, fmt, procs, i);
    var out := Format(procs[i], disk, fmt);
    if out.Failure? {
      FormatSticks(base, fmt, procs, i + 1);
      return Failure(out.error);
    }
    r := Success(errors + if out.value.Some? && out.value.value.err != [] then [out.value.value] else []);
  }

  class Room {
    /** The room after its scripts were rewritten in place. */
    const validated: Value
    const stringprocs: seq<Proc>
    const checksum: string
    const file: string
    var memo: Option<State>

    /** The fields of a room built from `original`, which the rewrite turned
        into `rewritten` and `stringprocs`: the checksum and the file are
        those of the original. */
    constructor (original: Value, rewritten: Value, stringprocs: seq<Proc>, rt: Runtime)
      requires !original.Null?
      ensures validated == rewritten && this.stringprocs == stringprocs
      ensures checksum == rt.checksum(original) && file == RoomFile(original)
      ensures memo == None
    {
      validated := rewritten;
      this.stringprocs := stringprocs;
      checksum := rt.checksum(original);
      file := RoomFile(original);
      memo := None;
    }

    /** The constructor as it runs: the checksum of the room and its file
        name first, then the rewrite of its maps in place, which may raise. */
    static method New(validated: Value, rt: Runtime) returns (r: Result<Room, string>)
      ensures validated.Null? ==> r == Failure(ReadError("null", "id"))
      ensures !validated.Null? ==>
        var out := Rewrite(validated);
        && (out.Failure? ==> r == Failure(out.error))
        && (out.Success? ==> r.Success? && fresh(r.value) && r.value.memo == None
                             && r.value.checksum == rt.checksum(validated) && r.value.file == RoomFile(validated)
                             && r.value.validated == out.value.0 && r.value.stringprocs == out.value.1)
    {
      if validated.Null? {
        return Failure(ReadError("null", "id"));
      }
      var out := Transform(validated);
      if out.Failure? {
        return Failure(out.error);
      }
      var room := new Room(validated, out.value.0, out.value.1, rt);
      return Success(room);
    }

    /** `Room.validate`: the schema check, then the constructor. */
    static method Validate(data: Value, rt: Runtime) returns (r: Result<Room, string>)
      ensures rt.validate(data).Failure? ==> r == Failure(rt.validate(data).error)
      ensures rt.validate(data).Success? ==>
        var v := rt.validate(data).value;
        && (v.Null? ==> r == Failure(ReadError("null", "id")))
        && (!v.Null? ==>
              var out := Rewrite(v);
              && (out.Failure? ==> r == Failure(out.error))
              && (out.Success? ==> r.Success? && fresh(r.value) && r.value.memo == None
                                   && r.value.checksum == rt.checksum(v) && r.value.file == RoomFile(v)
                                   && r.value.validated == out.value.0 && r.value.stringprocs == out.value.1))
    {
      var checked := rt.validate(data);
      if checked.Failure? {
        return Failure(checked.error);
      }
      r := New(checked.value, rt);
    }

    /** What `getState` answers on these files. */
    function Observe(files: map<string, string>, rt: Runtime): Result<State, string>
      reads this
    {
      if Served(memo) then Success(memo.value) else ClassifyByChecksum(files, rt, checksum, file)
    }

    /** `getState`: a served memo is answered without looking at the tree;
        otherwise the state is decided on the stored checksum and remembered,
        unless reading the stored file raised. */
    method GetState(disk: Files.Disk, rt: Runtime) returns (r: Result<State, string>)
      modifies this
      ensures r == old(Observe(disk.files, rt))
      ensures Served(old(memo)) ==> memo == old(memo)
      ensures !Served(old(memo)) ==> memo == (if r.Success? then Some(r.value) else old(memo))
    {
      if Served(memo) {
        return Success(memo.value);
      }
      if file !in disk.files {
        memo := Some(Missing);
        return Success(Missing);
      }
      var parsed := rt.parse(disk.files[file]);
      if parsed.Failure? {
        return Failure(parsed.error);
      }
      var stored := Prop(parsed.value, "checksum");
      if stored.Failure? {
        return Failure(stored.error);
      }
      memo := Some(if stored.value == Some(Str(checksum)) then Ok else Stale);
      return Success(memo.value);
    }

    /** `toGit`: the checksum beside the rewritten room. */
    function ToGit(): (r: Value)
      ensures Prop(r, "checksum") == Success(Some(Str(checksum)))
      ensures Prop(r, "room") == Success(Some(validated))
    {
      Envelope(checksum, validated)
    }

    function ToString(rt: Runtime): string {
      rt.stringify(ToGit())
    }

    /** `write`: the envelope written to the room's file, then every script
        formatted in order; the reports with text are returned. */
    method Write(disk: Files.Disk, fmt: ProcBatch.Formatter, rt: Runtime) returns (r: Result<seq<Report>, string>)
      modifies disk
      ensures disk.files == FormatWrites(old(disk.files)[file := ToString(rt)], fmt, stringprocs)
      ensures r == FormatAll(fmt, stringprocs)
    {
      disk.Write(file, ToString(rt));
      ghost var base := disk.files;
      var errors: seq<Report> := [];
      for i := 0 to |stringprocs|
        invariant FormatAll(fmt, stringprocs[..i]) == Success(errors)
        invariant disk.files == FormatWrites(base, fmt, stringprocs[..i])
      {
        var step := FormatAt(disk, fmt, stringprocs, i, base, errors);
        if step.Failure? {
          return step;
        }
        errors := step.value;
      }
      assert stringprocs[..|stringprocs|] == stringprocs;
      return Success(errors);
    }
  }
}
