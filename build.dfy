/** The build task: the room files of the git tree gathered back into one
    room array, either the standard `mapdb.json` keyed by room id or the
    userland bundle whose scripts live in files of their own. */
module Build {
  import opened Wrappers
  import opened Text
  import opened Js
  import opened StringProcs
  import opened Rooms
  import opened RoomTree
  import opened Records
  import Files

  /** `BuildConfig`, with the source map that the command line passes and
      the userland recovery reads (`userland` absent is `None`). */
  datatype Config = Config(gitDir: string, outputFile: Option<string>, outputDir: Option<string>,
                           userland: Option<bool>, sourceMapdbPath: Option<string>)

  /** `BuildResults` */
  datatype Results = Results(roomsProcessed: nat, errors: seq<Report>)

  const OutputFileRequired := "outputFile is required for standard build"
  const OutputDirRequired := "outputDir is required for userland build"
  const ProcessHead := "Failed to process room file: "

  /** The error a room file that could not be processed adds. */
  function Problem(path: string, msg: string): Report {
    Report(ProcessHead + msg, path)
  }

  /** `JSON.parse(await fs.readFile(roomFile)).room`. */
  function ReadRoom(files: map<string, string>, path: string, rt: Runtime): Result<Option<Value>, string> {
    if path !in files then Failure(Files.NotFound(path))
    else
      var gitRoom :- rt.parse(files[path]);
      Prop(gitRoom, "room")
  }

  // ---------------------------------------------------------------------------
  // Standard build

  /** One room file of the standard build: the room as stored, keyed by its
      id printed with `toString`. */
  function Keyed(files: map<string, string>, path: string, rt: Runtime): (r: Result<(string, Value), string>)
    ensures r.Success? ==> ReadRoom(files, path, rt) == Success(Some(r.value.1)) && !r.value.1.Null?
  {
    var room :- ReadRoom(files, path, rt);
    var id :- Get(room, "id");
    var key :- ToText(id);
    Success((key, room.value))
  }

  /** How one room file is processed: its id and room, or an error. */
  type Reader = string -> Result<(string, Value), string>

  /** `Keyed` on a given tree. */
  function Reading(files: map<string, string>, rt: Runtime): Reader {
    path => Keyed(files, path, rt)
  }

  /** The rooms record and the errors after the room files. */
  datatype Gathered = Gathered(rooms: Fields, errors: seq<Report>)

  /** The loop of `buildStandard` over the room files: `rooms[roomId] = room`
      for a file that is processed, one error for a file that is not. */
  function Gather(read: Reader, paths: seq<string>): Gathered {
    if paths == [] then Gathered([], [])
    else
      var g := Gather(read, paths[..|paths| - 1]);
      var path := paths[|paths| - 1];
      var keyed := read(path);
      if keyed.Success? then Gathered(Assign(g.rooms, keyed.value.0, keyed.value.1), g.errors)
      else Gathered(g.rooms, g.errors + [Problem(path, keyed.error)])
  }

  /** `key` is the id of one of the files processed. */
  predicate IdAmong(read: Reader, paths: seq<string>, key: string) {
    exists k :: 0 <= k < |paths| && read(paths[k]).Success? && read(paths[k]).value.0 == key
  }

  predicate Distinct(s: seq<string>) {
    forall i, j :: 0 <= i < j < |s| ==> s[i] != s[j]
  }

  /** The record's keys are distinct. */
  lemma {:induction false} GatherDistinct(read: Reader, paths: seq<string>)
    ensures Distinct(Keys(Gather(read, paths).rooms))
    decreases |paths|
  {
    if paths != [] {
      var init := paths[..|paths| - 1];
      GatherDistinct(read, init);
      var keyed := read(paths[|paths| - 1]);
      if keyed.Success? {
        AssignKeys(Gather(read, init).rooms, keyed.value.0, keyed.value.1);
      }
    }
  }

  /** The record has a member for `key` exactly when `key` is the id of a
      file processed. */
  lemma {:induction false} GatherHasKey(read: Reader, paths: seq<string>, key: string)
    ensures key in Keys(Gather(read, paths).rooms) <==> IdAmong(read, paths, key)
    decreases |paths|
  {
    if paths != [] {
      var init := paths[..|paths| - 1];
      GatherHasKey(read, init, key);
      var keyed := read(paths[|paths| - 1]);
      if keyed.Success? {
        AssignKeys(Gather(read, init).rooms, keyed.value.0, keyed.value.1);
      }
      if IdAmong(read, init, key) {
        var k :| 0 <= k < |init| && read(init[k]).Success? && read(init[k]).value.0 == key;
        assert paths[k] == init[k];
      }
      if IdAmong(read, paths, key) {
        var k :| 0 <= k < |paths| && read(paths[k]).Success? && read(paths[k]).value.0 == key;
        if k < |init| {
          assert init[k] == paths[k];
        }
      }
    }
  }

  /** Last write wins: a processed file with no later processed file of the
      same id leaves its room under that id. */
  lemma {:induction false} GatherLastWins(read: Reader, paths: seq<string>, k: nat)
    requires k < |paths| && read(paths[k]).Success?
    requires forall j :: k < j < |paths| ==>
      !(read(paths[j]).Success? && read(paths[j]).value.0 == read(paths[k]).value.0)
    ensures Lookup(Gather(read, paths).rooms, read(paths[k]).value.0)
         == Some(read(paths[k]).value.1)
    decreases |paths|
  {
    var init := paths[..|paths| - 1];
    var g := Gather(read, init);
    var keyed := read(paths[|paths| - 1]);
    if k == |paths| - 1 {
      AssignSets(g.rooms, keyed.value.0, keyed.value.1);
    } else {
      assert init[k] == paths[k];
      forall j | k < j < |init| ensures !(read(init[j]).Success?
                                          && read(init[j]).value.0 == read(init[k]).value.0) {
        assert init[j] == paths[j];
      }
      GatherLastWins(read, init, k);
      if keyed.Success? {
        AssignKeepsOthers(g.rooms, keyed.value.0, keyed.value.1, read(paths[k]).value.0);
      }
    }
  }

  /** `e` is the error of one of the files that could not be processed. */
  predicate ErrorAmong(read: Reader, paths: seq<string>, e: Report) {
    exists k :: 0 <= k < |paths| && read(paths[k]).Failure?
                && e == Problem(paths[k], read(paths[k]).error)
  }

  /** A file that cannot be processed adds its own error, every error is
      one of those, and the pass goes on past it. */
  lemma {:induction false} GatherErrors(read: Reader, paths: seq<string>)
    ensures forall e :: e in Gather(read, paths).errors <==> ErrorAmong(read, paths, e)
    ensures |Gather(read, paths).rooms| + |Gather(read, paths).errors| <= |paths|
    decreases |paths|
  {
    if paths != [] {
      var init := paths[..|paths| - 1];
      GatherErrors(read, init);
      var g := Gather(read, init);
      var keyed := read(paths[|paths| - 1]);
      if keyed.Success? {
        AssignKeys(g.rooms, keyed.value.0, keyed.value.1);
      }
      forall e ensures ErrorAmong(read, paths, e) <==>
        ErrorAmong(read, init, e) || (keyed.Failure? && e == Problem(paths[|paths| - 1], keyed.error)) {
        if ErrorAmong(read, paths, e) {
          var k :| 0 <= k < |paths| && read(paths[k]).Failure?
                   && e == Problem(paths[k], read(paths[k]).error);
          if k < |init| {
            assert init[k] == paths[k];
          }
        }
        if ErrorAmong(read, init, e) {
          var k :| 0 <= k < |init| && read(init[k]).Failure?
                   && e == Problem(init[k], read(init[k]).error);
          assert paths[k] == init[k];
        }
      }
    }
  }

  /** A sequence without repeats has as many elements as it has members. */
  lemma {:induction false} DistinctCount(s: seq<string>)
    requires Distinct(s)
    ensures |set x | x in s| == |s|
    decreases |s|
  {
    if s != [] {
      var init := s[..|s| - 1];
      DistinctCount(init);
      assert (set x | x in s) == (set x | x in init) + {s[|s| - 1]};
    }
  }

  /** The ids of the files processed. */
  function Ids(read: Reader, paths: seq<string>): set<string> {
    set k | 0 <= k < |paths| && read(paths[k]).Success? :: read(paths[k]).value.0
  }

  /** `roomsProcessed`: the array holds one room per distinct id. */
  lemma StandardCount(read: Reader, paths: seq<string>)
    ensures |ObjectValues(Gather(read, paths).rooms)| == |Ids(read, paths)|
  {
    var rooms := Gather(read, paths).rooms;
    GatherDistinct(read, paths);
    ObjectValuesCount(rooms);
    DistinctCount(Keys(rooms));
    assert (set x | x in Keys(rooms)) == Ids(read, paths) by {
      forall key | key in Ids(read, paths) ensures key in Keys(rooms) {
        var k :| 0 <= k < |paths| && read(paths[k]).Success? && read(paths[k]).value.0 == key;
        GatherHasKey(read, paths, key);
      }
      forall key | key in Keys(rooms) ensures key in Ids(read, paths) {
        GatherHasKey(read, paths, key);
      }
    }
  }

  /** What the standard build returns and the files it leaves. */
  function Standard(config: Config, files: map<string, string>, readable: bool, entries: seq<Entry>,
                    rt: Runtime): Result<(Results, map<string, string>), string>
  {
    if !Given(config.outputFile) then Failure(OutputFileRequired)
    else
      var g := Gather(Reading(files, rt), Found(config.gitDir, readable, entries));
      var values := ObjectValues(g.rooms);
      Success((Results(|values|, g.errors), files[config.outputFile.value := rt.stringify(Arr(values))]))
  }

  /** One room file read for the standard build. */
  method ReadKeyed(files: map<string, string>, path: string, rt: Runtime) returns (r: Result<(string, Value), string>)
    ensures r == Keyed(files, path, rt)
  {
    if path !in files {
      return Failure(Files.NotFound(path));
    }
    var gitRoom := rt.parse(files[path]);
    if gitRoom.Failure? {
      return Failure(gitRoom.error);
    }
    var room := Prop(gitRoom.value, "room");
    if room.Failure? {
      return Failure(room.error);
    }
    var id := Get(room.value, "id");
    if id.Failure? {
      return Failure(id.error);
    }
    var key := ToText(id.value);
    if key.Failure? {
      return Failure(key.error);
    }
    return Success((key.value, room.value.value));
  }

  /** The loop of `buildStandard` over the room files. */
  method GatherRooms(files: map<string, string>, paths: seq<string>, rt: Runtime)
    returns (rooms: Fields, errors: seq<Report>)
    ensures Gathered(rooms, errors) == Gather(Reading(files, rt), paths)
  {
    rooms, errors := [], [];
    for i := 0 to |paths|
      invariant Gathered(rooms, errors) == Gather(Reading(files, rt), paths[..i])
    {
      assert paths[..i + 1][..i] == paths[..i];
      var keyed := ReadKeyed(files, paths[i], rt);
      if keyed.Success? {
        rooms := Assign(rooms, keyed.value.0, keyed.value.1);
      } else {
        errors := errors + [Problem(paths[i], keyed.error)];
      }
    }
    assert paths[..|paths|] == paths;
  }

  /** `buildStandard` */
  method BuildStandard(config: Config, disk: Files.Disk, readable: bool, entries: seq<Entry>, rt: Runtime)
    returns (r: Result<Results, string>)
    modifies disk
    ensures var spec := Standard(config, old(disk.files), readable, entries, rt);
      && (spec.Failure? ==> r == Failure(spec.error) && disk.files == old(disk.files))
      && (spec.Success? ==> r == Success(spec.value.0) && disk.files == spec.value.1)
  {
    if !Given(config.outputFile) {
      return Failure(OutputFileRequired);
    }
    var roomFiles := FindRoomFiles(config.gitDir, readable, entries);
    var rooms, errors := GatherRooms(disk.files, roomFiles, rt);
    var values := ObjectValues(rooms);
    disk.Write(config.outputFile.value, rt.stringify(Arr(values)));
    return Success(Results(|values|, errors));
  }

  // ---------------------------------------------------------------------------
  // Userland build

  /** The per-room step of the userland build: the stored room created in
      userland mode, its scripts loaded from the tree or recovered from the
      source map. A room that is absent is copied through JSON text, where
      `undefined` does not parse. This follows what the project's tests
      expect of the build; the call the build makes as written is modelled
      by `AsWrittenOne`. */
  function Bundled(files: map<string, string>, path: string, mode: Setting, rt: Runtime)
    : Result<(Value, seq<Proc>), string>
  {
    var room :- ReadRoom(files, path, rt);
    var copy :- if room.Some? then Success(room.value) else rt.parse("undefined");
    Rewrite(copy, mode, files, rt)
  }

  /** The bundle's files for some procs: each script at its bundle path. */
  function Scripts(procs: seq<Proc>): (r: seq<(string, string)>)
    ensures |r| == |procs|
    ensures forall k :: 0 <= k < |procs| ==> r[k] == (procs[k].userlandPath, procs[k].ruby)
  {
    seq(|procs|, k requires 0 <= k < |procs| => (procs[k].userlandPath, procs[k].ruby))
  }

  /** How one room file of the userland build comes out. */
  type Step = string -> Result<(Value, seq<Proc>), string>

  /** `Bundled` on a given tree and mode. */
  function Bundling(files: map<string, string>, mode: Setting, rt: Runtime): Step {
    path => Bundled(files, path, mode, rt)
  }

  /** The rooms, the script files and the errors of the userland build. */
  datatype Bundle = Bundle(rooms: seq<Value>, scripts: seq<(string, string)>, errors: seq<Report>)

  /** The loop of `buildUserland` over the room files. */
  function Collect(step: Step, paths: seq<string>): Bundle {
    if paths == [] then Bundle([], [], [])
    else
      var b := Collect(step, paths[..|paths| - 1]);
      var path := paths[|paths| - 1];
      var out := step(path);
      if out.Success? then Bundle(b.rooms + [out.value.0], b.scripts + Scripts(out.value.1), b.errors)
      else Bundle(b.rooms, b.scripts, b.errors + [Problem(path, out.error)])
  }

  /** Every room file gives either a room or an error, and every room and
      every error comes from a file of the scan. */
  lemma {:induction false} CollectAccounts(step: Step, paths: seq<string>)
    ensures var b := Collect(step, paths);
      && |b.rooms| + |b.errors| == |paths|
      && (forall e :: e in b.errors ==>
            exists k :: 0 <= k < |paths| && step(paths[k]).Failure?
                        && e == Problem(paths[k], step(paths[k]).error))
      && (forall v :: v in b.rooms ==>
            exists k :: 0 <= k < |paths| && step(paths[k]).Success?
                        && v == step(paths[k]).value.0)
    decreases |paths|
  {
    if paths != [] {
      var init := paths[..|paths| - 1];
      CollectAccounts(step, init);
      var b := Collect(step, init);
      forall e | e in b.errors ensures exists k :: 0 <= k < |paths| && step(paths[k]).Failure?
                                                   && e == Problem(paths[k], step(paths[k]).error) {
        var k :| 0 <= k < |init| && step(init[k]).Failure?
                 && e == Problem(init[k], step(init[k]).error);
        assert paths[k] == init[k];
      }
      forall v | v in b.rooms ensures exists k :: 0 <= k < |paths| && step(paths[k]).Success?
                                                  && v == step(paths[k]).value.0 {
        var k :| 0 <= k < |init| && step(init[k]).Success?
                 && v == step(init[k]).value.0;
        assert paths[k] == init[k];
      }
    }
  }

  /** A single room file whose step fails leaves no room and one error
      naming that file, as the project's tests expect of a script that can
      be neither read nor recovered. */
  lemma CollectOneFailure(step: Step, path: string)
    requires step(path).Failure?
    ensures Collect(step, [path])
         == Bundle([], [], [Report(ProcessHead + step(path).error, path)])
  {
    assert [path][..0] == [];
  }

  /** The script files written one after the other under `dir`. */
  function WriteScripts(files: map<string, string>, dir: string, scripts: seq<(string, string)>)
    : map<string, string>
  {
    if scripts == [] then files
    else
      var last := scripts[|scripts| - 1];
      WriteScripts(files, dir, scripts[..|scripts| - 1])[PathJoin(dir, last.0) := last.1]
  }

  /** A path no script is written to keeps what it held. */
  lemma {:induction false} WriteScriptsSpares(files: map<string, string>, dir: string,
                                              scripts: seq<(string, string)>, path: string)
    requires forall k :: 0 <= k < |scripts| ==> PathJoin(dir, scripts[k].0) != path
    ensures path in WriteScripts(files, dir, scripts) <==> path in files
    ensures path in files ==> WriteScripts(files, dir, scripts)[path] == files[path]
    decreases |scripts|
  {
    if scripts != [] {
      var init := scripts[..|scripts| - 1];
      assert forall k :: 0 <= k < |init| ==> init[k] == scripts[k];
      WriteScriptsSpares(files, dir, init, path);
    }
  }

  /** After the writes each script file holds the script written last to
      its path. */
  lemma {:induction false} WriteScriptsHolds(files: map<string, string>, dir: string,
                                             scripts: seq<(string, string)>, k: nat)
    requires k < |scripts|
    requires forall j :: k < j < |scripts| ==> PathJoin(dir, scripts[j].0) != PathJoin(dir, scripts[k].0)
    ensures PathJoin(dir, scripts[k].0) in WriteScripts(files, dir, scripts)
    ensures WriteScripts(files, dir, scripts)[PathJoin(dir, scripts[k].0)] == scripts[k].1
    decreases |scripts|
  {
    var init := scripts[..|scripts| - 1];
    if k < |init| {
      assert forall j :: k < j < |init| ==> init[j] == scripts[j];
      WriteScriptsHolds(files, dir, init, k);
      assert init[k] == scripts[k];
    }
  }

  /** The userland mode of the rewrite, with the build's git tree and
      source map. */
  function UserlandMode(config: Config): Setting {
    Setting(true, Some(config.gitDir), config.sourceMapdbPath)
  }

  /** What the userland build returns and the files it leaves: the rooms
      kept, as JSON, at `mapdb.json` in the output directory, then each
      script file under `stringprocs`. */
  function Userland(config: Config, files: map<string, string>, readable: bool, entries: seq<Entry>,
                    rt: Runtime): Result<(Results, map<string, string>), string>
  {
    if !Given(config.outputDir) then Failure(OutputDirRequired)
    else
      var b := Collect(Bundling(files, UserlandMode(config), rt), Found(config.gitDir, readable, entries));
      var written := files[PathJoin(config.outputDir.value, "mapdb.json") := rt.stringify(Arr(b.rooms))];
      Success((Results(|b.rooms|, b.errors),
               WriteScripts(written, PathJoin(config.outputDir.value, "stringprocs"), b.scripts)))
  }

  /** One room file of the userland build, through `Room.create`. */
  method BundleOne(files: map<string, string>, path: string, mode: Setting, rt: Runtime)
    returns (r: Result<(Value, seq<Proc>), string>)
    ensures r == Bundled(files, path, mode, rt)
  {
    var room := ReadRoom(files, path, rt);
    if room.Failure? {
      return Failure(room.error);
    }
    var copy := if room.value.Some? then Success(room.value.value) else rt.parse("undefined");
    if copy.Failure? {
      return Failure(copy.error);
    }
    var created := Room.Create(copy.value, mode, files, rt);
    if created.Failure? {
      return Failure(created.error);
    }
    return Success((created.value.validated, created.value.stringprocs));
  }

  /** `for (const proc of room.stringprocs) stringProcFiles.push(…)` */
  method PushScripts(scripts: seq<(string, string)>, procs: seq<Proc>) returns (out: seq<(string, string)>)
    ensures out == scripts + Scripts(procs)
  {
    out := scripts;
    for j := 0 to |procs|
      invariant out == scripts + Scripts(procs[..j])
    {
      assert Scripts(procs[..j + 1]) == Scripts(procs[..j]) + [(procs[j].userlandPath, procs[j].ruby)];
      out := out + [(procs[j].userlandPath, procs[j].ruby)];
    }
    assert procs[..|procs|] == procs;
  }

  /** The loop of `buildUserland` over the room files. */
  method CollectRooms(files: map<string, string>, paths: seq<string>, mode: Setting, rt: Runtime)
    returns (b: Bundle)
    ensures b == Collect(Bundling(files, mode, rt), paths)
  {
    var rooms: seq<Value>, scripts: seq<(string, string)>, errors: seq<Report> := [], [], [];
    for i := 0 to |paths|
      invariant Bundle(rooms, scripts, errors) == Collect(Bundling(files, mode, rt), paths[..i])
    {
      assert paths[..i + 1][..i] == paths[..i];
      var out := BundleOne(files, paths[i], mode, rt);
      if out.Success? {
        rooms := rooms + [out.value.0];
        scripts := PushScripts(scripts, out.value.1);
      } else {
        errors := errors + [Problem(paths[i], out.error)];
      }
    }
    assert paths[..|paths|] == paths;
    b := Bundle(rooms, scripts, errors);
  }

  /** The script files written under `dir`, in order. */
  method WriteBundle(disk: Files.Disk, dir: string, scripts: seq<(string, string)>)
    modifies disk
    ensures disk.files == WriteScripts(old(disk.files), dir, scripts)
  {
    for k := 0 to |scripts|
      invariant disk.files == WriteScripts(old(disk.files), dir, scripts[..k])
    {
      assert scripts[..k + 1][..k] == scripts[..k];
      disk.Write(PathJoin(dir, scripts[k].0), scripts[k].1);
    }
    assert scripts[..|scripts|] == scripts;
  }

  /** `buildUserland`, with the per-room step the project's tests expect. */
  method BuildUserland(config: Config, disk: Files.Disk, readable: bool, entries: seq<Entry>, rt: Runtime)
    returns (r: Result<Results, string>)
    modifies disk
    ensures var spec := Userland(config, old(disk.files), readable, entries, rt);
      && (spec.Failure? ==> r == Failure(spec.error) && disk.files == old(disk.files))
      && (spec.Success? ==> r == Success(spec.value.0) && disk.files == spec.value.1)
  {
    if !Given(config.outputDir) {
      return Failure(OutputDirRequired);
    }
    var roomFiles := FindRoomFiles(config.gitDir, readable, entries);
    var b := CollectRooms(disk.files, roomFiles, UserlandMode(config), rt);
    disk.Write(PathJoin(config.outputDir.value, "mapdb.json"), rt.stringify(Arr(b.rooms)));
    WriteBundle(disk, PathJoin(config.outputDir.value, "stringprocs"), b.scripts);
    return Success(Results(|b.rooms|, b.errors));
  }

  // ---------------------------------------------------------------------------
  // The userland step as written

  /** Node's message when the room's hash is fed `undefined`. */
  const HashInputError :=
    "The \"data\" argument must be of type string or an instance of Buffer, TypedArray, or DataView. Received undefined"

  /** V8's message for `for…of` over the boolean that was passed as the
      room's procs. */
  const NotIterable := "room.stringprocs is not iterable"

  /** `new Room(gitRoom.room, true)` and the loop over `room.stringprocs`
      as the build writes them: the room is not rewritten; an absent room
      fails at its hash and a `null` one at its id; any other room is kept
      and then fails at the loop, since `true` is not iterable. */
  function AsWrittenOne(files: map<string, string>, path: string, rt: Runtime): (Option<Value>, Report) {
    var room := ReadRoom(files, path, rt);
    if room.Failure? then (None, Problem(path, room.error))
    else if room.value.None? then (None, Problem(path, HashInputError))
    else if room.value.value.Null? then (None, Problem(path, ReadError("null", "id")))
    else (Some(room.value.value), Problem(path, NotIterable))
  }

  /** The loop of `buildUserland` as written. */
  function AsWrittenCollect(files: map<string, string>, paths: seq<string>, rt: Runtime): Bundle {
    if paths == [] then Bundle([], [], [])
    else
      var b := AsWrittenCollect(files, paths[..|paths| - 1], rt);
      var one := AsWrittenOne(files, paths[|paths| - 1], rt);
      Bundle(b.rooms + (if one.0.Some? then [one.0.value] else []), b.scripts, b.errors + [one.1])
  }

  /** As written, every room file adds an error and no script file is ever
      collected, whatever the tree holds. */
  lemma {:induction false} AsWrittenReportsEveryFile(files: map<string, string>, paths: seq<string>, rt: Runtime)
    ensures |AsWrittenCollect(files, paths, rt).errors| == |paths|
    ensures AsWrittenCollect(files, paths, rt).scripts == []
    decreases |paths|
  {
    if paths != [] {
      AsWrittenReportsEveryFile(files, paths[..|paths| - 1], rt);
    }
  }

  /** A single room file that the intended step processes cleanly is
      reported as an error by the step as written. */
  lemma AsWrittenDiffers(files: map<string, string>, path: string, mode: Setting, rt: Runtime)
    requires Bundled(files, path, mode, rt).Success?
    ensures |AsWrittenCollect(files, [path], rt).errors| == 1
    ensures var b := Collect(Bundling(files, mode, rt), [path]); b.errors == [] && |b.rooms| == 1
  {
    assert [path][..0] == [];
    AsWrittenReportsEveryFile(files, [path], rt);
  }

  // ---------------------------------------------------------------------------
  // Dispatch

  /** `build`: the userland build when `userland` is set, the standard
      build otherwise. */
  method Run(config: Config, disk: Files.Disk, readable: bool, entries: seq<Entry>, rt: Runtime)
    returns (r: Result<Results, string>)
    modifies disk
    ensures var spec := if config.userland == Some(true) then Userland(config, old(disk.files), readable, entries, rt)
                        else Standard(config, old(disk.files), readable, entries, rt);
      && (spec.Failure? ==> r == Failure(spec.error) && disk.files == old(disk.files))
      && (spec.Success? ==> r == Success(spec.value.0) && disk.files == spec.value.1)
  {
    if config.userland == Some(true) {
      r := BuildUserland(config, disk, readable, entries, rt);
    } else {
      r := BuildStandard(config, disk, readable, entries, rt);
    }
  }
}
