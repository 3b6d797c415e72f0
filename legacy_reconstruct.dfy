/** The `reconstruct` task of the older snapshot under `mapdb/`: the room
    files of the git tree gathered back into one room array keyed by room
    id. It is the standard build without the check for an output path: an
    empty path reaches the write, whose error the task reports wrapped. */
module LegacyReconstruct {
  import opened Wrappers
  import opened Js
  import opened RoomTree
  import opened Records
  import opened Build
  import Files

  const FailedHead := "Reconstruction failed: "

  /** `reconstruct`: every room file found under the git directory read and
      keyed by its id, a file that cannot be processed reported, and the
      rooms written to the output file in `Object.values` order. Writing to
      an empty path raises `ENOENT`. */
  function Reconstructed(gitDir: string, outputFile: string, files: map<string, string>, readable: bool,
                         entries: seq<Entry>, rt: Runtime): Result<(Results, map<string, string>), string>
  {
    var g := Gather(Reading(files, rt), Found(gitDir, readable, entries));
    var values := ObjectValues(g.rooms);
    if outputFile == [] then Failure(FailedHead + Files.NotFound(outputFile))
    else Success((Results(|values|, g.errors), files[outputFile := rt.stringify(Arr(values))]))
  }

  /** With an output path, reconstructing is the current standard build;
      without one, both fail, the current build before it starts and the
      older task at its write. */
  lemma ReconstructIsStandardBuild(gitDir: string, outputFile: string, files: map<string, string>, readable: bool,
                                   entries: seq<Entry>, rt: Runtime, config: Config)
    requires config.gitDir == gitDir && config.outputFile == Some(outputFile)
    ensures outputFile != [] ==>
      Reconstructed(gitDir, outputFile, files, readable, entries, rt) == Standard(config, files, readable, entries, rt)
    ensures outputFile == [] ==>
      && Reconstructed(gitDir, outputFile, files, readable, entries, rt) == Failure(FailedHead + Files.NotFound(""))
      && Standard(config, files, readable, entries, rt) == Failure(OutputFileRequired)
  {
  }

  /** A completed reconstruction counts one room per distinct id among the
      files read, reports one error per file that could not be processed
      and no other, and writes the rooms to the output file and nowhere
      else. */
  lemma ReconstructAccounts(gitDir: string, outputFile: string, files: map<string, string>, readable: bool,
                            entries: seq<Entry>, rt: Runtime)
    ensures var r, paths := Reconstructed(gitDir, outputFile, files, readable, entries, rt), Found(gitDir, readable, entries);
      r.Success? ==>
        && r.value.0.roomsProcessed == |Ids(Reading(files, rt), paths)|
        && (forall e :: e in r.value.0.errors <==> ErrorAmong(Reading(files, rt), paths, e))
        && r.value.0.roomsProcessed + |r.value.0.errors| <= |paths|
        && outputFile in r.value.1
        && forall p :: p != outputFile ==> (p in r.value.1 <==> p in files) && (p in files ==> r.value.1[p] == files[p])
  {
    var paths := Found(gitDir, readable, entries);
    StandardCount(Reading(files, rt), paths);
    GatherErrors(Reading(files, rt), paths);
    ObjectValuesCount(Gather(Reading(files, rt), paths).rooms);
  }

  /** `reconstruct` */
  method Reconstruct(gitDir: string, outputFile: string, disk: Files.Disk, readable: bool, entries: seq<Entry>,
                     rt: Runtime) returns (r: Result<Results, string>)
    modifies disk
    ensures var spec := Reconstructed(gitDir, outputFile, old(disk.files), readable, entries, rt);
      && (spec.Failure? ==> r == Failure(spec.error) && disk.files == old(disk.files))
      && (spec.Success? ==> r == Success(spec.value.0) && disk.files == spec.value.1)
  {
    var roomFiles := FindRoomFiles(gitDir, readable, entries);
    var rooms, errors := GatherRooms(disk.files, roomFiles, rt);
    var values := ObjectValues(rooms);
    if outputFile == [] {
      return Failure(FailedHead + Files.NotFound(outputFile));
    }
    disk.Write(outputFile, rt.stringify(Arr(values)));
    return Success(Results(|values|, errors));
  }
}
