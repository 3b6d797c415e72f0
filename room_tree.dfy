/** The git tree as `findRoomFiles` walks it: directory listings, and the
    room files found by a depth-first scan that skips what it cannot read. */
module RoomTree {
  import opened Text

  /** An entry of a directory listing. A directory carries whether it can
      be listed and, if so, its entries in listing order; `Other` is
      anything that is neither a directory nor a regular file. */
  datatype Entry =
    | File(name: string)
    | Dir(name: string, readable: bool, entries: seq<Entry>)
    | Other(name: string)

  const RoomJson := "room.json"

  /** The room files under a directory, in scan order: nothing when the
      directory cannot be listed. */
  function Found(dir: string, readable: bool, entries: seq<Entry>): seq<string> {
    if readable then FoundIn(dir, entries) else []
  }

  /** The room files found by visiting `entries` in order. */
  function FoundIn(dir: string, entries: seq<Entry>): seq<string>
    decreases entries
  {
    if entries == [] then []
    else FoundIn(dir, entries[..|entries| - 1]) + FoundAt(dir, entries[|entries| - 1])
  }

  /** What one entry contributes: a directory is scanned in turn, a file
      named `room.json` is found, anything else is passed over. */
  function FoundAt(dir: string, e: Entry): seq<string>
    decreases e
  {
    match e
    case Dir(name, readable, entries) => if readable then FoundIn(PathJoin(dir, name), entries) else []
    case File(name) => if name == RoomJson then [PathJoin(dir, name)] else []
    case Other(_) => []
  }

  /** `scanDirectory`: the paths found are appended to `found`. */
  method ScanDirectory(dir: string, readable: bool, entries: seq<Entry>, found: seq<string>)
    returns (out: seq<string>)
    ensures out == found + Found(dir, readable, entries)
    decreases entries
  {
    out := found;
    if !readable {
      return;
    }
    for i := 0 to |entries|
      invariant out == found + FoundIn(dir, entries[..i])
    {
      assert entries[..i + 1][..i] == entries[..i];
      match entries[i]
      case Dir(name, subReadable, sub) =>
        out := ScanDirectory(PathJoin(dir, name), subReadable, sub, out);
      case File(name) =>
        if name == RoomJson {
          out := out + [PathJoin(dir, name)];
        }
      case Other(_) =>
    }
    assert entries[..|entries|] == entries;
  }

  /** `findRoomFiles`: the scan of the git directory. */
  method FindRoomFiles(gitDir: string, readable: bool, entries: seq<Entry>) returns (r: seq<string>)
    ensures r == Found(gitDir, readable, entries)
  {
    r := ScanDirectory(gitDir, readable, entries, []);
  }

  /** A file name joined to a directory keeps the name at its end. */
  lemma JoinEndsWithName(dir: string, name: string)
    requires name != [] && name[0] != '/'
    ensures EndsWith(PathJoin(dir, name), name)
  {
    var p := PathJoin(dir, name);
    if dir != [] {
      var head := if dir[|dir| - 1] == '/' then dir[..|dir| - 1] else dir;
      assert p == head + "/" + name;
      assert p[|p| - |name|..] == name;
    }
  }

  /** A path is found among some entries exactly when one of those entries
      contributes it. */
  lemma {:induction false} FoundInFrom(dir: string, entries: seq<Entry>, p: string)
    ensures p in FoundIn(dir, entries) <==> exists k :: 0 <= k < |entries| && p in FoundAt(dir, entries[k])
    decreases |entries|
  {
    if entries != [] {
      var init, last := entries[..|entries| - 1], entries[|entries| - 1];
      FoundInFrom(dir, init, p);
      assert p in FoundIn(dir, entries) <==> p in FoundIn(dir, init) || p in FoundAt(dir, last);
      if p in FoundIn(dir, init) {
        var k :| 0 <= k < |init| && p in FoundAt(dir, init[k]);
        assert entries[k] == init[k];
      } else if p !in FoundAt(dir, last) {
        forall k | 0 <= k < |entries| ensures p !in FoundAt(dir, entries[k]) {
          if k < |init| {
            assert init[k] == entries[k];
          }
        }
      }
    }
  }

  /** Every path found names a file called `room.json`. */
  lemma {:induction false} FoundAreRoomFiles(dir: string, entries: seq<Entry>)
    ensures forall p :: p in FoundIn(dir, entries) ==> EndsWith(p, RoomJson)
    decreases entries
  {
    forall p | p in FoundIn(dir, entries) ensures EndsWith(p, RoomJson) {
      FoundInFrom(dir, entries, p);
      var k :| 0 <= k < |entries| && p in FoundAt(dir, entries[k]);
      match entries[k]
      case Dir(name, readable, sub) =>
        FoundAreRoomFiles(PathJoin(dir, name), sub);
      case File(name) =>
        JoinEndsWithName(dir, name);
      case Other(_) =>
    }
  }

  /** A `room.json` file listed in a directory is found, and so is every
      room file found under a readable subdirectory. */
  lemma FoundComplete(dir: string, entries: seq<Entry>, k: nat)
    requires k < |entries|
    ensures entries[k] == File(RoomJson) ==> PathJoin(dir, RoomJson) in FoundIn(dir, entries)
    ensures entries[k].Dir? && entries[k].readable ==>
      forall p :: p in FoundIn(PathJoin(dir, entries[k].name), entries[k].entries) ==> p in FoundIn(dir, entries)
  {
    forall p | p in FoundAt(dir, entries[k]) ensures p in FoundIn(dir, entries) {
      FoundInFrom(dir, entries, p);
    }
  }
}
