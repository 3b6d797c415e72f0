/** The `validate-files` task: each stored room file read, its room
    validated and created, and every file counted as valid or reported. */
module FileValidation {
  import opened Wrappers
  import opened Js
  import opened Rooms
  import opened MapdbValidation
  import Files

  /** `FileValidationError`: the file, and the id and first title read from
      it as far as that is possible. */
  datatype FileError = FileError(file: string, id: Option<Value>, title: Option<Value>, error: string)

  /** `ValidateFilesResult` */
  datatype Outcome = Outcome(validFiles: nat, errors: seq<FileError>, files: seq<string>)

  /** The room held by a file: `gitRoom.room || gitRoom`, which accepts both
      the git tree's envelope and a bare room. */
  function RoomData(files: map<string, string>, file: string, rt: Runtime): (r: Result<Value, string>)
    ensures r.Success? ==> file in files && rt.parse(files[file]).Success?
    ensures r.Success? ==> var gitRoom := rt.parse(files[file]).value;
      && !gitRoom.Null?
      && r.value == (if Truthy(Prop(gitRoom, "room").value) then Prop(gitRoom, "room").value.value else gitRoom)
  {
    if file !in files then Failure(Files.NotFound(file))
    else
      var gitRoom :- rt.parse(files[file]);
      var room :- Prop(gitRoom, "room");
      Success(Or(room, Some(gitRoom)).value)
  }

  /** The id and the first title entry, read again from the file after a
      failure; both are `undefined` when the file cannot be read. */
  function Describe(files: map<string, string>, file: string, rt: Runtime): (r: (Option<Value>, Option<Value>))
    ensures RoomData(files, file, rt).Failure? ==> r == (None, None)
    ensures RoomData(files, file, rt).Success? ==>
      var data := RoomData(files, file, rt).value;
      r == (Prop(data, "id").value, OptGet(Prop(data, "title").value, "0"))
  {
    var data := RoomData(files, file, rt);
    if data.Failure? then (None, None)
    else
      assert !data.value.Null?;
      (Prop(data.value, "id").value, OptGet(Prop(data.value, "title").value, "0"))
  }

  /** One file: valid when its room data validates and the room can be
      created, otherwise the error with what could be read of the room. */
  function Verdict(files: map<string, string>, file: string, rt: Runtime): (r: Option<FileError>)
    ensures r.None? <==> RoomData(files, file, rt).Success? && Checked(RoomData(files, file, rt).value, files, rt).Success?
    ensures r.Some? ==> r.value.file == file
  {
    var data := RoomData(files, file, rt);
    var error :=
      if data.Failure? then Some(data.error)
      else
        var checked := Checked(data.value, files, rt);
        if checked.Failure? then Some(checked.error) else None;
    if error.None? then None
    else
      var (id, title) := Describe(files, file, rt);
      Some(FileError(file, id, title, error.value))
  }

  /** How one file is judged. */
  type Judge = string -> Option<FileError>

  function Judging(files: map<string, string>, rt: Runtime): Judge {
    file => Verdict(files, file, rt)
  }

  /** The loop over the files: the count of valid files and the errors, in
      file order. */
  function Tally(judge: Judge, paths: seq<string>): (nat, seq<FileError>) {
    if paths == [] then (0, [])
    else
      var t := Tally(judge, paths[..|paths| - 1]);
      var v := judge(paths[|paths| - 1]);
      if v.None? then (t.0 + 1, t.1) else (t.0, t.1 + [v.value])
  }

  /** Every file is counted once: as valid or as one error. */
  lemma {:induction false} TallyAccounts(judge: Judge, paths: seq<string>)
    ensures Tally(judge, paths).0 + |Tally(judge, paths).1| == |paths|
    decreases |paths|
  {
    if paths != [] {
      TallyAccounts(judge, paths[..|paths| - 1]);
    }
  }

  /** The errors are the verdicts of the failing files, in file order. */
  lemma {:induction false} TallyErrors(judge: Judge, paths: seq<string>)
    ensures forall e :: e in Tally(judge, paths).1 <==> exists k :: 0 <= k < |paths| && judge(paths[k]) == Some(e)
    decreases |paths|
  {
    if paths != [] {
      var init := paths[..|paths| - 1];
      TallyErrors(judge, init);
      forall e ensures (exists k :: 0 <= k < |paths| && judge(paths[k]) == Some(e)) <==>
        (exists k :: 0 <= k < |init| && judge(init[k]) == Some(e)) || judge(paths[|paths| - 1]) == Some(e) {
        if exists k :: 0 <= k < |paths| && judge(paths[k]) == Some(e) {
          var k :| 0 <= k < |paths| && judge(paths[k]) == Some(e);
          if k < |init| {
            assert init[k] == paths[k];
          }
        }
        if exists k :: 0 <= k < |init| && judge(init[k]) == Some(e) {
          var k :| 0 <= k < |init| && judge(init[k]) == Some(e);
          assert paths[k] == init[k];
        }
      }
    }
  }

  /** One more file is one more verdict. */
  lemma TallyStep(judge: Judge, paths: seq<string>, i: nat)
    requires i < |paths|
    ensures var t := Tally(judge, paths[..i]);
      Tally(judge, paths[..i + 1])
        == if judge(paths[i]).None? then (t.0 + 1, t.1) else (t.0, t.1 + [judge(paths[i]).value])
  {
    assert paths[..i + 1][..i] == paths[..i];
  }

  /** One file checked through `Room.validate`. */
  method CheckFile(files: map<string, string>, file: string, rt: Runtime) returns (r: Option<FileError>)
    ensures r == Judging(files, rt)(file)
  {
    var data := RoomData(files, file, rt);
    var error: Option<string> := None;
    if data.Failure? {
      error := Some(data.error);
    } else {
      var room := Room.Validate(data.value, Standard, files, rt);
      if room.Failure? {
        error := Some(room.error);
      }
    }
    if error.None? {
      return None;
    }
    var described := Describe(files, file, rt);
    return Some(FileError(file, described.0, described.1, error.value));
  }

  /** `validateFiles` */
  method ValidateFiles(files: map<string, string>, paths: seq<string>, rt: Runtime) returns (r: Outcome)
    ensures r.files == paths
    ensures (r.validFiles, r.errors) == Tally(Judging(files, rt), paths)
  {
    ghost var judge := Judging(files, rt);
    var validFiles := 0;
    var errors: seq<FileError> := [];
    for i := 0 to |paths|
      invariant validFiles == Tally(judge, paths[..i]).0 && errors == Tally(judge, paths[..i]).1
    {
      TallyStep(judge, paths, i);
      var verdict := CheckFile(files, paths[i], rt);
      if verdict.None? {
        validFiles := validFiles + 1;
      } else {
        errors := errors + [verdict.value];
      }
    }
    assert paths[..|paths|] == paths;
    return Outcome(validFiles, errors, paths);
  }
}
