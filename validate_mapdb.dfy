/** `validateMapdb`: the map database read as a JSON array of rooms, each
    room checked against the schema and rewritten in standard mode; rooms
    that fail are recorded with their title and id, the others become
    `Room`s in their original order. */
module MapdbValidation {
  import opened Wrappers
  import opened Text
  import opened Js
  import opened StringProcs
  import opened Rooms
  import Files

  /** A room that failed: `title` is `pending.title?.[0] || 'Unknown'` and
      `id` is `pending.id || 0`, both as the room had them. */
  datatype Invalid = Invalid(title: Option<Value>, id: Option<Value>, error: string)

  /** `Room.validate(pending)` leaves `userland`, `gitDir` and
      `sourceMapdbPath` at their defaults. */
  const Standard := Setting(false, None, None)

  const NotArrayError := "Invalid mapdb.json format: expected an array of rooms"
  const ReadHead := "Failed to read or parse "

  /** What the outer handler turns any error into. */
  function ReadFailure(filePath: string, msg: string): string {
    ReadHead + filePath + ": " + msg
  }

  /** One pending room through `Room.validate`: the schema check, then the
      rewrite. */
  function Checked(pending: Value, fs: map<string, string>, rt: Runtime): Result<(Value, seq<Proc>), string> {
    var validated :- rt.validate(pending);
    Rewrite(validated, Standard, fs, rt)
  }

  /** The record of a failed room. Reading `title` from a `null` room raises
      inside the handler, so the error escapes the loop. */
  function InvalidOf(pending: Value, error: string): (r: Result<Invalid, string>)
    ensures r.Failure? <==> pending.Null?
    ensures r.Success? ==> r.value.error == error
  {
    var title :- Prop(pending, "title");
    Success(Invalid(Or(OptGet(title, "0"), Some(Str("Unknown"))),
                    Or(Prop(pending, "id").value, Some(Int(0))), error))
  }

  /** The defaults: a room without a title is `Unknown` and a room without
      an id is `0`; a title given as a list is recorded by its first entry
      when that entry is truthy. */
  lemma InvalidDefaults(fields: Fields, error: string)
    ensures var r := InvalidOf(Obj(fields), error);
      && r.Success?
      && (Lookup(fields, "title").None? ==> r.value.title == Some(Str("Unknown")))
      && (Lookup(fields, "id").None? ==> r.value.id == Some(Int(0)))
      && (Truthy(Lookup(fields, "id")) ==> r.value.id == Lookup(fields, "id"))
      && (forall items :: Lookup(fields, "title") == Some(Arr(items)) && items != [] && Truthy(Some(items[0]))
            ==> r.value.title == Some(items[0]))
  {
    forall items | Lookup(fields, "title") == Some(Arr(items)) && items != [] && Truthy(Some(items[0]))
      ensures OptGet(Lookup(fields, "title"), "0") == Some(items[0])
    {
      ArrayIndexOfNumeral("0");
      assert "0" == NatToString(0);
    }
  }

  /** The loop over the rooms, from the first: the rooms that passed with
      their procs, in order, and the records of those that failed; an
      error raised while recording a failure ends the loop. */
  function Sort(items: seq<Value>, fs: map<string, string>, rt: Runtime)
    : Result<(seq<(Value, seq<Proc>)>, seq<Invalid>), string>
  {
    if items == [] then Success(([], []))
    else
      var done :- Sort(items[..|items| - 1], fs, rt);
      Admit(done, items[|items| - 1], fs, rt)
  }

  /** One turn of the loop: a room that passes joins the passed ones, one
      that fails is recorded. */
  function Admit(done: (seq<(Value, seq<Proc>)>, seq<Invalid>), pending: Value, fs: map<string, string>,
                 rt: Runtime): Result<(seq<(Value, seq<Proc>)>, seq<Invalid>), string>
  {
    var out := Checked(pending, fs, rt);
    if out.Success? then Success((done.0 + [out.value], done.1))
    else
      var invalid :- InvalidOf(pending, out.error);
      Success((done.0, done.1 + [invalid]))
  }

  /** The rooms that pass the checks, in their original order. */
  function Passed(items: seq<Value>, fs: map<string, string>, rt: Runtime): seq<(Value, seq<Proc>)> {
    if items == [] then []
    else
      var out := Checked(items[|items| - 1], fs, rt);
      Passed(items[..|items| - 1], fs, rt) + if out.Success? then [out.value] else []
  }

  /** A room whose record cannot be made: it fails its checks and is `null`. */
  predicate Escapes(pending: Value, fs: map<string, string>, rt: Runtime) {
    Checked(pending, fs, rt).Failure? && pending.Null?
  }

  /** A turn raises exactly when the room escapes; otherwise it adds the
      room to exactly one of the two lists. */
  lemma AdmitAccounts(done: (seq<(Value, seq<Proc>)>, seq<Invalid>), pending: Value,
                      fs: map<string, string>, rt: Runtime)
    ensures Admit(done, pending, fs, rt).Failure? <==> Escapes(pending, fs, rt)
    ensures var r := Admit(done, pending, fs, rt);
      r.Success? ==>
        && r.value.0 == done.0 + (if Checked(pending, fs, rt).Success? then [Checked(pending, fs, rt).value] else [])
        && |r.value.1| == |done.1| + (if Checked(pending, fs, rt).Success? then 0 else 1)
  {
  }

  /** One more room makes the loop fail exactly when the loop over the
      earlier rooms failed or the new room escapes. */
  lemma SortStepFails(items: seq<Value>, fs: map<string, string>, rt: Runtime)
    requires items != []
    ensures Sort(items, fs, rt).Failure? <==>
      Sort(items[..|items| - 1], fs, rt).Failure? || Escapes(items[|items| - 1], fs, rt)
  {
    var init := items[..|items| - 1];
    if Sort(init, fs, rt).Success? {
      AdmitAccounts(Sort(init, fs, rt).value, items[|items| - 1], fs, rt);
    }
  }

  /** The loop fails exactly when some room escapes. */
  lemma {:induction false} SortFails(items: seq<Value>, fs: map<string, string>, rt: Runtime)
    ensures Sort(items, fs, rt).Failure? <==> exists k :: 0 <= k < |items| && Escapes(items[k], fs, rt)
  {
    if items != [] {
      var init := items[..|items| - 1];
      SortFails(init, fs, rt);
      SortStepFails(items, fs, rt);
      if Sort(init, fs, rt).Failure? {
        var k :| 0 <= k < |init| && Escapes(init[k], fs, rt);
        assert items[k] == init[k];
      } else if !Escapes(items[|items| - 1], fs, rt) {
        forall k | 0 <= k < |items| ensures !Escapes(items[k], fs, rt) {
          if k < |init| {
            assert items[k] == init[k];
          }
        }
      }
    }
  }

  /** When the loop completes, the passed rooms are exactly those that pass
      the checks, in order, and every room is in one of the two lists. */
  lemma {:induction false} SortAccounts(items: seq<Value>, fs: map<string, string>, rt: Runtime)
    ensures Sort(items, fs, rt).Success? ==>
      && Sort(items, fs, rt).value.0 == Passed(items, fs, rt)
      && |Sort(items, fs, rt).value.0| + |Sort(items, fs, rt).value.1| == |items|
  {
    if items != [] {
      var init := items[..|items| - 1];
      SortAccounts(init, fs, rt);
      if Sort(init, fs, rt).Success? {
        AdmitAccounts(Sort(init, fs, rt).value, items[|items| - 1], fs, rt);
      }
    }
  }

  /** Every room that passes is an actual room, never `null`. */
  lemma {:induction false} PassedNotNull(items: seq<Value>, fs: map<string, string>, rt: Runtime)
    ensures forall e :: e in Passed(items, fs, rt) ==> !e.0.Null?
  {
    if items != [] {
      PassedNotNull(items[..|items| - 1], fs, rt);
      var pending := items[|items| - 1];
      if Checked(pending, fs, rt).Success? {
        RewriteNotNull(rt.validate(pending).value, Standard, fs, rt);
      }
    }
  }

  /** The whole pass on the files: a missing file, JSON that does not parse,
      a value that is not an array and an error escaping the loop all end
      it with the outer message. */
  function Validation(files: map<string, string>, filePath: string, rt: Runtime)
    : Result<(seq<(Value, seq<Proc>)>, seq<Invalid>), string>
  {
    if filePath !in files then Failure(ReadFailure(filePath, Files.NotFound(filePath)))
    else
      match rt.parse(files[filePath])
      case Failure(e) => Failure(ReadFailure(filePath, e))
      case Success(v) =>
        if !v.Arr? then Failure(ReadFailure(filePath, NotArrayError))
        else
          match Sort(v.items, files, rt)
          case Failure(e) => Failure(ReadFailure(filePath, e))
          case Success(s) => Success(s)
  }

  /** Every failure of the pass carries the outer message. */
  lemma ValidationFailures(files: map<string, string>, filePath: string, rt: Runtime)
    ensures Validation(files, filePath, rt).Failure? ==>
      exists msg :: Validation(files, filePath, rt).error == ReadFailure(filePath, msg)
  {
    var r := Validation(files, filePath, rt);
    if r.Failure? {
      if filePath !in files {
        assert r.error == ReadFailure(filePath, Files.NotFound(filePath));
      } else if rt.parse(files[filePath]).Failure? {
        assert r.error == ReadFailure(filePath, rt.parse(files[filePath]).error);
      } else if !rt.parse(files[filePath]).value.Arr? {
        assert r.error == ReadFailure(filePath, NotArrayError);
      } else {
        assert r.error == ReadFailure(filePath, Sort(rt.parse(files[filePath]).value.items, files, rt).error);
      }
    }
  }

  /** The rooms a successful pass yields are never `null`. */
  lemma ValidationNotNull(files: map<string, string>, filePath: string, rt: Runtime)
    ensures Validation(files, filePath, rt).Success? ==>
      forall e :: e in Validation(files, filePath, rt).value.0 ==> !e.0.Null?
  {
    if Validation(files, filePath, rt).Success? {
      var items := rt.parse(files[filePath]).value.items;
      SortAccounts(items, files, rt);
      PassedNotNull(items, files, rt);
    }
  }

  /** The rooms built for the passed entries: fresh, distinct, unvisited
      rooms over the rewritten values and their procs. */
  ghost predicate BuiltFrom(rooms: seq<Room>, passed: seq<(Value, seq<Proc>)>, rt: Runtime)
    reads rooms
  {
    && |rooms| == |passed|
    && (forall i :: 0 <= i < |rooms| ==>
          && rooms[i].validated == passed[i].0 && rooms[i].stringprocs == passed[i].1
          && rooms[i].memo == None && rooms[i].Derived(rt))
    && (forall i, j :: 0 <= i < j < |rooms| ==> rooms[i] != rooms[j])
  }

  /** `validateMapdb` */
  method ValidateMapdb(files: map<string, string>, filePath: string, rt: Runtime)
    returns (r: Result<(seq<Room>, seq<Invalid>), string>)
    ensures var spec := Validation(files, filePath, rt);
      && (spec.Failure? ==> r == Failure(spec.error))
      && (spec.Success? ==> r.Success? && r.value.1 == spec.value.1
                            && BuiltFrom(r.value.0, spec.value.0, rt)
                            && forall i :: 0 <= i < |r.value.0| ==> fresh(r.value.0[i]))
  {
    if filePath !in files {
      return Failure(ReadFailure(filePath, Files.NotFound(filePath)));
    }
    var parsed := rt.parse(files[filePath]);
    if parsed.Failure? {
      return Failure(ReadFailure(filePath, parsed.error));
    }
    if !parsed.value.Arr? {
      return Failure(ReadFailure(filePath, NotArrayError));
    }
    var sorted := SortRooms(parsed.value.items, files, rt);
    if sorted.Failure? {
      return Failure(ReadFailure(filePath, sorted.error));
    }
    return sorted;
  }

  /** The loop of `validateMapdb` over the parsed rooms. */
  method SortRooms(items: seq<Value>, files: map<string, string>, rt: Runtime)
    returns (r: Result<(seq<Room>, seq<Invalid>), string>)
    ensures var spec := Sort(items, files, rt);
      && (spec.Failure? ==> r == Failure(spec.error))
      && (spec.Success? ==> r.Success? && r.value.1 == spec.value.1
                            && BuiltFrom(r.value.0, spec.value.0, rt)
                            && forall i :: 0 <= i < |r.value.0| ==> fresh(r.value.0[i]))
  {
    var rooms: seq<Room> := [];
    var errors: seq<Invalid> := [];
    ghost var passed: seq<(Value, seq<Proc>)> := [];
    var i := 0;
    while i < |items|
      invariant 0 <= i <= |items|
      invariant Sort(items[..i], files, rt) == Success((passed, errors))
      invariant BuiltFrom(rooms, passed, rt)
      invariant forall j :: 0 <= j < |rooms| ==> fresh(rooms[j])
    {
      SortStep(items, i, files, rt);
      var next, passedNext := AdmitRoom(items[i], files, rt, rooms, errors, passed);
      if next.Failure? {
        SortStops(items, i, files, rt);
        return Failure(next.error);
      }
      rooms, errors, passed := next.value.0, next.value.1, passedNext;
      i := i + 1;
    }
    assert items[..i] == items;
    return Success((rooms, errors));
  }

  /** One turn of the loop, on the rooms built so far. */
  method AdmitRoom(pending: Value, files: map<string, string>, rt: Runtime,
                   rooms: seq<Room>, errors: seq<Invalid>, ghost passed: seq<(Value, seq<Proc>)>)
    returns (r: Result<(seq<Room>, seq<Invalid>), string>, ghost passedNext: seq<(Value, seq<Proc>)>)
    requires BuiltFrom(rooms, passed, rt)
    ensures var spec := Admit((passed, errors), pending, files, rt);
      && (spec.Failure? ==> r == Failure(spec.error))
      && (spec.Success? ==> r.Success? && r.value.1 == spec.value.1 && passedNext == spec.value.0
                            && BuiltFrom(r.value.0, passedNext, rt)
                            && |rooms| <= |r.value.0| && r.value.0[..|rooms|] == rooms
                            && forall j :: |rooms| <= j < |r.value.0| ==> fresh(r.value.0[j]))
  {
    var room := ValidateOne(pending, files, rt);
    if room.Success? {
      BuiltFromExtend(rooms, passed, rt, room.value, Checked(pending, files, rt).value);
      passedNext := passed + [Checked(pending, files, rt).value];
      r := Success((rooms + [room.value], errors));
      assert r.value.0[..|rooms|] == rooms;
    } else {
      var invalid := InvalidOf(pending, room.error);
      if invalid.Failure? {
        return Failure(invalid.error), passed;
      }
      passedNext := passed;
      r := Success((rooms, errors + [invalid.value]));
      assert r.value.0[..|rooms|] == rooms;
    }
  }

  /** `Room.validate(pending)`, stated on the checks it runs. */
  method ValidateOne(pending: Value, files: map<string, string>, rt: Runtime) returns (r: Result<Room, string>)
    ensures var spec := Checked(pending, files, rt);
      && (spec.Failure? ==> r == Failure(spec.error))
      && (spec.Success? ==> r.Success? && fresh(r.value) && r.value.memo == None && r.value.Derived(rt)
                            && r.value.validated == spec.value.0 && r.value.stringprocs == spec.value.1)
  {
    r := Room.Validate(pending, Standard, files, rt);
  }

  /** Appending a room built for the next passed entry keeps the rooms
      matched to the entries. */
  lemma BuiltFromExtend(rooms: seq<Room>, passed: seq<(Value, seq<Proc>)>, rt: Runtime,
                        room: Room, entry: (Value, seq<Proc>))
    requires BuiltFrom(rooms, passed, rt) && room !in rooms
    requires room.validated == entry.0 && room.stringprocs == entry.1 && room.memo == None && room.Derived(rt)
    ensures BuiltFrom(rooms + [room], passed + [entry], rt)
  {
  }

  /** The loop over one more room is one more turn. */
  lemma SortStep(items: seq<Value>, i: nat, fs: map<string, string>, rt: Runtime)
    requires i < |items| && Sort(items[..i], fs, rt).Success?
    ensures Sort(items[..i + 1], fs, rt) == Admit(Sort(items[..i], fs, rt).value, items[i], fs, rt)
  {
    assert items[..i + 1][..i] == items[..i];
  }

  /** Once the loop has raised, the rest of the rooms do not matter. */
  lemma {:induction false} SortStops(items: seq<Value>, i: nat, fs: map<string, string>, rt: Runtime)
    requires i < |items| && Sort(items[..i], fs, rt).Success?
    requires Admit(Sort(items[..i], fs, rt).value, items[i], fs, rt).Failure?
    ensures Sort(items, fs, rt) == Failure(Admit(Sort(items[..i], fs, rt).value, items[i], fs, rt).error)
    decreases |items| - i
  {
    if i + 1 == |items| {
      assert items[..i] == items[..|items| - 1];
    } else {
      assert items[..|items| - 1][..i] == items[..i] && items[..|items| - 1][i] == items[i];
      SortStops(items[..|items| - 1], i, fs, rt);
    }
  }
}
