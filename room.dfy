/** A room as the sync pass handles it: the validated and rewritten room,
    the scripts taken out of it, its checksum and the file it is stored at,
    and the memo of its state in the git tree. */
module Rooms {
  import opened Wrappers
  import opened Js
  import opened StringProcs
  import opened ProcBatch
  import Files
  import Text

  /** How the stored copy of a room compares with the room in hand. As in
      the enumeration it models, each state's number is its position. */
  datatype State = Missing | Stale | Ok {
    function Code(): nat {
      match this
      case Missing => 0
      case Stale => 1
      case Ok => 2
    }
  }

  /** `if (this._state)`: a memo is served only when it is set and its number
      is not zero, so a remembered `Missing` is looked up again. */
  predicate Served(memo: Option<State>) {
    memo.Some? && memo.value.Code() != 0
  }

  lemma ServedStates(memo: Option<State>)
    ensures Served(memo) <==> memo == Some(Stale) || memo == Some(Ok)
  {
  }

  /** `/rooms/{id}/room.json`, the id printed as a template literal prints it. */
  function RoomFile(validated: Value): string
    requires !validated.Null?
  {
    "/rooms/" + TemplateOf(Prop(validated, "id").value) + "/room.json"
  }

  /** A script's storage location is never a room's file: one ends in `.rb`,
      the other in `.json`. */
  lemma LocationIsNotRoomFile(kind: Kind, from: string, to: string, validated: Value)
    requires !validated.Null?
    ensures Location(kind, from, to) != RoomFile(validated)
  {
    var loc, file := Location(kind, from, to), RoomFile(validated);
    assert loc[|loc| - 1] == 'b';
    assert file[|file| - 1] == 'n';
  }

  /** What the git tree stores for a room: its checksum beside the room. */
  function Envelope(checksum: string, room: Value): (r: Value)
    ensures Prop(r, "checksum") == Success(Some(Str(checksum)))
    ensures Prop(r, "room") == Success(Some(room))
    ensures r.Obj? && Keys(r.fields) == ["checksum", "room"]
  {
    var fields := [("checksum", Str(checksum)), ("room", room)];
    assert fields[1..] == [("room", room)] && fields[1..][1..] == [];
    assert "checksum" != "room";
    assert Lookup(fields[1..], "room") == Some(room);
    assert Keys(fields)[0] == "checksum" && Keys(fields)[1] == "room";
    Obj(fields)
  }

  /** `getState` decided on the files: no stored file is `Missing`; a stored
      file that does not parse, or parses to `null`, raises; a stored
      checksum other than the room's, or a script file that is absent, is
      `Stale`; anything else is `Ok`. */
  function Classify(files: map<string, string>, rt: Runtime, checksum: string, file: string,
                    procs: seq<Proc>): Result<State, string>
  {
    if file !in files then Success(Missing)
    else
      var disk :- rt.parse(files[file]);
      var stored :- Prop(disk, "checksum");
      if stored != Some(Str(checksum)) then Success(Stale)
      else if exists k :: 0 <= k < |procs| && procs[k].location !in files then Success(Stale)
      else Success(Ok)
  }

  /** A room is `Missing` exactly when its file is absent. */
  lemma ClassifyMissing(files: map<string, string>, rt: Runtime, checksum: string, file: string,
                        procs: seq<Proc>)
    ensures Classify(files, rt, checksum, file, procs) == Success(Missing) <==> file !in files
  {
  }

  /** A stored file whose checksum differs from the room's is `Stale`,
      whatever scripts are present. */
  lemma ClassifyChanged(files: map<string, string>, rt: Runtime, checksum: string, file: string,
                        procs: seq<Proc>, stored: Value)
    requires file in files && rt.parse(files[file]) == Success(stored)
    requires !stored.Null? && Prop(stored, "checksum").value != Some(Str(checksum))
    ensures Classify(files, rt, checksum, file, procs) == Success(Stale)
  {
  }

  /** The envelope is canonical exactly when the room is: its two keys are
      distinct and neither is an array index. */
  lemma EnvelopeCanonical(checksum: string, room: Value)
    ensures Canonical(Envelope(checksum, room)) <==> Canonical(room)
  {
    var env := Envelope(checksum, room);
    assert !Text.IsDigit("checksum"[0]) && !Text.IsDigit("room"[0]);
    assert ArrayIndex("checksum").None? && ArrayIndex("room").None?;
    assert EnumerationOrdered(Keys(env.fields));
    assert env.fields[0].1 == Str(checksum) && env.fields[1].1 == room;
  }

  /** While a room's file holds the envelope it wrote, the room is `Ok`
      exactly when all of its script files are present, and `Stale`
      otherwise. */
  lemma StoredState(files: map<string, string>, rt: Runtime, checksum: string, room: Value,
                    file: string, procs: seq<Proc>)
    requires RoundTrips(rt) && Canonical(room)
    requires file in files && files[file] == rt.stringify(Envelope(checksum, room))
    ensures (forall k :: 0 <= k < |procs| ==> procs[k].location in files) ==>
      Classify(files, rt, checksum, file, procs) == Success(Ok)
    ensures (exists k :: 0 <= k < |procs| && procs[k].location !in files) ==>
      Classify(files, rt, checksum, file, procs) == Success(Stale)
  {
    var env := Envelope(checksum, room);
    EnvelopeCanonical(checksum, room);
    assert rt.parse(rt.stringify(env)) == Success(env);
  }

  /** Once the envelope is written and the batch has written every script,
      the room reads back as `Ok`, so a second sync skips it, provided no
      script shares the room's file (`LocationIsNotRoomFile`). */
  lemma SyncedRoomIsOk(files: map<string, string>, rt: Runtime, checksum: string, room: Value,
                       file: string, procs: seq<Proc>)
    requires RoundTrips(rt) && Canonical(room)
    ensures (forall k :: 0 <= k < |procs| ==> procs[k].location != file) ==>
      Classify(WriteAll(files[file := rt.stringify(Envelope(checksum, room))], procs),
               rt, checksum, file, procs) == Success(Ok)
  {
    var written := files[file := rt.stringify(Envelope(checksum, room))];
    WriteAllReaches(written, procs);
    if forall k :: 0 <= k < |procs| ==> procs[k].location != file {
      WriteAllSpares(written, procs, file);
      StoredState(WriteAll(written, procs), rt, checksum, room, file, procs);
    }
  }

  /** A successful rewrite starts from a room that is not `null` and gives
      one that is not `null` either. */
  lemma RewriteNotNull(room: Value, mode: Setting, fs: map<string, string>, rt: Runtime)
    requires Rewrite(room, mode, fs, rt).Success?
    ensures !room.Null? && !Rewrite(room, mode, fs, rt).value.0.Null?
  {
    var first := RewriteKind(room, Wayto, mode, fs, rt);
    assert first.Success?;
    assert !first.value.0.Null?;
  }

  class Room {
    const validated: Value
    const stringprocs: seq<Proc>
    const checksum: string
    const file: string
    var memo: Option<State>

    /** A room over its rewritten value and scripts; the checksum is that of
        the value, and the file is named by its id. */
    constructor (validated: Value, stringprocs: seq<Proc>, rt: Runtime)
      requires !validated.Null?
      ensures this.validated == validated && this.stringprocs == stringprocs
      ensures checksum == rt.checksum(validated) && file == RoomFile(validated)
      ensures memo == None
    {
      this.validated := validated;
      this.stringprocs := stringprocs;
      checksum := rt.checksum(validated);
      file := RoomFile(validated);
      memo := None;
    }

    /** The room's fields agree with what the constructor derives. */
    predicate Derived(rt: Runtime) {
      !validated.Null? && checksum == rt.checksum(validated) && file == RoomFile(validated)
    }

    /** `Room.create`: the room copied (values are immutable, so the copy is
        the room itself) and rewritten; a failing rewrite raises. */
    static method Create(validated: Value, mode: Setting, fs: map<string, string>, rt: Runtime)
      returns (r: Result<Room, string>)
      ensures var out := Rewrite(validated, mode, fs, rt);
        && (out.Failure? ==> r == Failure(out.error))
        && (out.Success? ==> r.Success? && fresh(r.value) && r.value.memo == None && r.value.Derived(rt)
                             && r.value.validated == out.value.0 && r.value.stringprocs == out.value.1)
    {
      var copy := validated;
      var out := Transform(copy, mode, fs, rt);
      if out.Failure? {
        return Failure(out.error);
      }
      RewriteNotNull(validated, mode, fs, rt);
      var room := new Room(out.value.0, out.value.1, rt);
      return Success(room);
    }

    /** `Room.validate`: the schema check, then `create`. */
    static method Validate(data: Value, mode: Setting, fs: map<string, string>, rt: Runtime)
      returns (r: Result<Room, string>)
      ensures rt.validate(data).Failure? ==> r == Failure(rt.validate(data).error)
      ensures rt.validate(data).Success? ==>
        var out := Rewrite(rt.validate(data).value, mode, fs, rt);
        && (out.Failure? ==> r == Failure(out.error))
        && (out.Success? ==> r.Success? && fresh(r.value) && r.value.memo == None && r.value.Derived(rt)
                             && r.value.validated == out.value.0 && r.value.stringprocs == out.value.1)
    {
      var checked := rt.validate(data);
      if checked.Failure? {
        return Failure(checked.error);
      }
      r := Create(checked.value, mode, fs, rt);
    }

    /** What `getState` answers on these files: the memo when it is served,
        the decision on the files otherwise. */
    function Observe(files: map<string, string>, rt: Runtime): Result<State, string>
      reads this
    {
      if Served(memo) then Success(memo.value) else Classify(files, rt, checksum, file, stringprocs)
    }

    /** `getState`: a served memo is answered without looking at the tree;
        otherwise the state is decided on the tree and remembered, unless
        reading the stored file raised. */
    method GetState(disk: Files.Disk, rt: Runtime) returns (r: Result<State, string>)
      modifies this
      ensures r == old(Observe(disk.files, rt))
      ensures Served(old(memo)) ==> memo == old(memo)
      ensures !Served(old(memo)) ==> memo == (if r.Success? then Some(r.value) else old(memo))
    {
      if Served(memo) {
        return Success(memo.value);
      }
      if file !in disk.files {
        memo := Some(Missing);
        return Success(Missing);
      }
      var parsed := rt.parse(disk.files[file]);
      if parsed.Failure? {
        return Failure(parsed.error);
      }
      var stored := Prop(parsed.value, "checksum");
      if stored.Failure? {
        return Failure(stored.error);
      }
      if stored.value != Some(Str(checksum)) {
        memo := Some(Stale);
        return Success(Stale);
      }
      var i := 0;
      while i < |stringprocs|
        invariant 0 <= i <= |stringprocs|
        invariant forall k :: 0 <= k < i ==> stringprocs[k].location in disk.files
      {
        if stringprocs[i].location !in disk.files {
          memo := Some(Stale);
          return Success(Stale);
        }
        i := i + 1;
      }
      memo := Some(Ok);
      return Success(Ok);
    }

    /** `toGit`: the checksum beside the room. */
    function ToGit(): (r: Value)
      ensures Prop(r, "checksum") == Success(Some(Str(checksum)))
      ensures Prop(r, "room") == Success(Some(validated))
    {
      Envelope(checksum, validated)
    }

    /** `toString`: the envelope as JSON text. */
    function ToString(rt: Runtime): string {
      rt.stringify(ToGit())
    }

    /** The text written for a room reads back as its envelope. */
    lemma ToStringReadsBack(rt: Runtime)
      requires RoundTrips(rt) && Canonical(validated)
      ensures rt.parse(ToString(rt)) == Success(ToGit())
    {
      EnvelopeCanonical(checksum, validated);
    }

    /** `write`: the envelope is written to the room's file and every script
        is queued on the batch, in order; nothing is reported. */
    method Write(disk: Files.Disk, batch: Batch, rt: Runtime) returns (errors: seq<Report>)
      modifies disk, batch
      ensures disk.files == old(disk.files)[file := ToString(rt)]
      ensures batch.procs == old(batch.procs) + stringprocs && batch.processing == old(batch.processing)
      ensures errors == []
    {
      disk.Write(file, ToString(rt));
      var i := 0;
      while i < |stringprocs|
        invariant 0 <= i <= |stringprocs|
        invariant batch.procs == old(batch.procs) + stringprocs[..i]
        invariant batch.processing == old(batch.processing)
        invariant disk.files == old(disk.files)[file := ToString(rt)]
      {
        Format(stringprocs[i], batch);
        assert stringprocs[..i + 1] == stringprocs[..i] + [stringprocs[i]];
        i := i + 1;
      }
      assert stringprocs[..i] == stringprocs;
      return [];
    }
  }
}
