/** Embedded Ruby scripts ("string procs") inside a room's `wayto` and
    `timeto` maps: how they are recognised, where they are stored, how a
    room's maps are rewritten to point at them, and how one is loaded back
    from a stored file or recovered from a source room list. */
module StringProcs {
  import opened Wrappers
  import opened Text
  import opened Js

  datatype Kind = Wayto | Timeto {
    /** The enum's string value, which is also the room property it names. */
    function Name(): string {
      match this
      case Wayto => "wayto"
      case Timeto => "timeto"
    }
  }

  /** A string proc; `dir` is never read and is not modelled. */
  datatype Proc = Proc(
    kind: Kind,
    source: string,
    from: string,
    to: string,
    ruby: string,
    location: string,
    userlandPath: string,
    cartographerReference: string)

  /** A serialised script: a string that begins with the `;e` sentinel. */
  predicate IsSerializedProc(x: Option<Value>) {
    x.Some? && x.value.Str? && StartsWith(x.value.s, ";e")
  }

  /** A reference to a stored script file: `/rooms/…` ending in `.rb`. */
  predicate IsFilePathReference(x: Option<Value>) {
    x.Some? && x.value.Str? && StartsWith(x.value.s, "/rooms/") && EndsWith(x.value.s, ".rb")
  }

  /** No value is both a serialised script and a file reference. */
  lemma NeverBoth(x: Option<Value>)
    ensures !(IsSerializedProc(x) && IsFilePathReference(x))
  {
    if IsSerializedProc(x) {
      assert x.value.s[0] == ';';
    }
  }

  /** Where the git tree stores a script: `/rooms/{from}/{kind}/stringproc-{to}.rb`. */
  function Location(kind: Kind, from: string, to: string): string {
    "/rooms/" + from + "/" + kind.Name() + "/stringproc-" + to + ".rb"
  }

  /** Where the userland bundle stores a script: `{kind}/room-{from}-to-{to}.rb`. */
  function UserlandPath(kind: Kind, from: string, to: string): string {
    kind.Name() + "/room-" + from + "-to-" + to + ".rb"
  }

  const EvaluateHead := ";e Cartographer.evaluate_script('"

  /** The serialised script that makes the client load the bundled file. */
  function CartographerReference(kind: Kind, from: string, to: string): string {
    EvaluateHead + UserlandPath(kind, from, to) + "')"
  }

  /** A storage location is a file reference, and a bundle reference is a
      serialised script, whatever the room ids. */
  lemma AddressKinds(kind: Kind, from: string, to: string)
    ensures IsFilePathReference(Some(Str(Location(kind, from, to))))
    ensures IsSerializedProc(Some(Str(CartographerReference(kind, from, to))))
    ensures !IsSerializedProc(Some(Str(Location(kind, from, to))))
  {
    var loc := Location(kind, from, to);
    assert loc[..7] == "/rooms/";
    assert loc[|loc| - 3..] == ".rb";
    var reference := CartographerReference(kind, from, to);
    assert reference[..2] == ";e";
    NeverBoth(Some(Str(loc)));
  }

  /** The constructor: the script text is the source after its two-character
      sentinel, trimmed, and the three addresses derive from the kind and the
      two room ids. */
  function NewProc(kind: Kind, source: string, from: string, to: string): (p: Proc)
    ensures p.kind == kind && p.source == source && p.from == from && p.to == to
    ensures p.location == Location(kind, from, to)
    ensures p.userlandPath == UserlandPath(kind, from, to)
    ensures p.cartographerReference == CartographerReference(kind, from, to)
  {
    Proc(kind, source, from, to, Trim(Slice(source, 2)),
      Location(kind, from, to), UserlandPath(kind, from, to), CartographerReference(kind, from, to))
  }

  /** The script text is a slice of what follows the sentinel, and it
      neither begins nor ends with whitespace. */
  lemma NewProcRubyTrimmed(kind: Kind, source: string, from: string, to: string)
    requires StartsWith(source, ";e")
    ensures var ruby, body := NewProc(kind, source, from, to).ruby, source[2..];
      && |TrimStart(body)| <= |body|
      && var lead := |body| - |TrimStart(body)|;
      && lead + |ruby| <= |body| && ruby == body[lead..lead + |ruby|]
      && (ruby == [] || (!IsSpace(ruby[0]) && !IsSpace(ruby[|ruby| - 1])))
  {
    var body := source[2..];
    assert Slice(source, 2) == body;
    TrimIsCore(body);
    TrimEdges(body);
  }

  /** Only whitespace stands between the sentinel and the script text, and
      between the script text and the end of the source. */
  lemma NewProcRubyDropsOnlySpace(kind: Kind, source: string, from: string, to: string)
    requires StartsWith(source, ";e")
    ensures var ruby, body := NewProc(kind, source, from, to).ruby, source[2..];
      && |TrimStart(body)| <= |body|
      && var lead := |body| - |TrimStart(body)|;
      && lead + |ruby| <= |body|
      && AllSpace(body[..lead]) && AllSpace(body[lead + |ruby|..])
  {
    var body := source[2..];
    assert Slice(source, 2) == body;
    TrimIsCore(body);
  }

  /** The constructor values the project's own tests expect: a `wayto`
      script. */
  lemma NewProcWaytoExample()
    ensures var p := NewProc(Wayto, ";e puts 'test'", "123", "456");
      && p.ruby == "puts 'test'"
      && p.location == "/rooms/123/wayto/stringproc-456.rb"
      && p.userlandPath == "wayto/room-123-to-456.rb"
      && p.cartographerReference == ";e Cartographer.evaluate_script('wayto/room-123-to-456.rb')"
  {
    WaytoRubyExample();
    WaytoLocationExample();
    WaytoUserlandPathExample();
    WaytoReferenceExample();
  }

  lemma WaytoRubyExample()
    ensures Trim(Slice(";e puts 'test'", 2)) == "puts 'test'"
  {
    AfterSentinel(";e puts 'test'", " ", "puts 'test'", "");
  }

  lemma WaytoLocationExample()
    ensures Location(Wayto, "123", "456") == "/rooms/123/wayto/stringproc-456.rb"
  {
  }

  lemma WaytoUserlandPathExample()
    ensures UserlandPath(Wayto, "123", "456") == "wayto/room-123-to-456.rb"
  {
  }

  lemma WaytoReferenceExample()
    ensures CartographerReference(Wayto, "123", "456") == ";e Cartographer.evaluate_script('wayto/room-123-to-456.rb')"
  {
  }

  /** The constructor values the project's own tests expect: a `timeto`
      script. */
  lemma NewProcTimetoExample()
    ensures var p := NewProc(Timeto, ";e Map[1].timeto['2'].call", "1", "2");
      && p.ruby == "Map[1].timeto['2'].call"
      && p.location == "/rooms/1/timeto/stringproc-2.rb"
      && p.userlandPath == "timeto/room-1-to-2.rb"
      && p.cartographerReference == ";e Cartographer.evaluate_script('timeto/room-1-to-2.rb')"
  {
    TimetoRubyExample();
    TimetoLocationExample();
    TimetoUserlandPathExample();
    TimetoReferenceExample();
  }

  lemma TimetoRubyExample()
    ensures Trim(Slice(";e Map[1].timeto['2'].call", 2)) == "Map[1].timeto['2'].call"
  {
    TimetoSourceSplits();
    AfterSentinel(";e Map[1].timeto['2'].call", " ", "Map[1].timeto['2'].call", "");
  }

  lemma TimetoSourceSplits()
    ensures ";e Map[1].timeto['2'].call" == ";e" + " " + "Map[1].timeto['2'].call" + ""
  {
  }

  lemma TimetoLocationExample()
    ensures Location(Timeto, "1", "2") == "/rooms/1/timeto/stringproc-2.rb"
  {
  }

  lemma TimetoUserlandPathExample()
    ensures UserlandPath(Timeto, "1", "2") == "timeto/room-1-to-2.rb"
  {
  }

  lemma TimetoReferenceExample()
    ensures CartographerReference(Timeto, "1", "2") == ";e Cartographer.evaluate_script('timeto/room-1-to-2.rb')"
  {
  }

  /** The constructor values the project's own tests expect: whitespace
      around the script is trimmed. */
  lemma NewProcTrimExample()
    ensures NewProc(Wayto, ";e   puts 'test'   ", "1", "2").ruby == "puts 'test'"
  {
    TrimRubyExample();
  }

  lemma TrimRubyExample()
    ensures Trim(Slice(";e   puts 'test'   ", 2)) == "puts 'test'"
  {
    AfterSentinel(";e   puts 'test'   ", "   ", "puts 'test'", "   ");
  }

  /** A script padded by whitespace after the sentinel is read back as
      exactly its text. */
  lemma AfterSentinel(source: string, pre: string, core: string, post: string)
    requires source == ";e" + pre + core + post
    requires AllSpace(pre) && AllSpace(post)
    requires core == [] || (!IsSpace(core[0]) && !IsSpace(core[|core| - 1]))
    ensures Trim(Slice(source, 2)) == core
  {
    assert source == ";e" + (pre + core + post);
    SliceAfter(";e", pre + core + post);
    TrimPadded(pre, core, post);
  }

  /** The two kinds have names that differ in their first character. */
  lemma KindFromInitial(k1: Kind, k2: Kind)
    requires k1.Name()[0] == k2.Name()[0]
    ensures k1 == k2
  {
  }

  /** The part of a location after the source room id and its `/`. */
  function LocationTail(kind: Kind, to: string): string {
    kind.Name() + "/stringproc-" + to + ".rb"
  }

  lemma LocationParts(kind: Kind, from: string, to: string)
    ensures Location(kind, from, to) == "/rooms/" + (from + "/" + LocationTail(kind, to))
  {
  }

  lemma LocationTailInjective(k1: Kind, t1: string, k2: Kind, t2: string)
    requires LocationTail(k1, t1) == LocationTail(k2, t2)
    ensures k1 == k2 && t1 == t2
  {
    var r := LocationTail(k1, t1);
    assert r[0] == k1.Name()[0] && r[0] == k2.Name()[0];
    KindFromInitial(k1, k2);
    assert t1 == r[|k1.Name()| + 12..|r| - 3];
  }

  /** Storage locations are distinct for distinct scripts when room ids
      hold no `/`. */
  lemma LocationInjective(k1: Kind, f1: string, t1: string, k2: Kind, f2: string, t2: string)
    requires '/' !in f1 && '/' !in f2
    requires Location(k1, f1, t1) == Location(k2, f2, t2)
    ensures k1 == k2 && f1 == f2 && t1 == t2
  {
    LocationParts(k1, f1, t1);
    LocationParts(k2, f2, t2);
    PrefixCancels("/rooms/", f1 + "/" + LocationTail(k1, t1), f2 + "/" + LocationTail(k2, t2));
    SeparatorSplitsUniquely(f1, LocationTail(k1, t1), f2, LocationTail(k2, t2), '/');
    LocationTailInjective(k1, t1, k2, t2);
  }

  lemma UserlandPathParts(kind: Kind, from: string, to: string)
    ensures UserlandPath(kind, from, to)[0] == kind.Name()[0]
    ensures UserlandPath(kind, from, to)[|kind.Name()| + 6..] == from + ['-'] + ("to-" + to + ".rb")
  {
    assert UserlandPath(kind, from, to) == kind.Name() + "/room-" + (from + ['-'] + ("to-" + to + ".rb"));
  }

  /** Bundle paths are distinct for distinct scripts when the source room
      id holds no `-`. */
  lemma UserlandPathInjective(k1: Kind, f1: string, t1: string, k2: Kind, f2: string, t2: string)
    requires '-' !in f1 && '-' !in f2
    requires UserlandPath(k1, f1, t1) == UserlandPath(k2, f2, t2)
    ensures k1 == k2 && f1 == f2 && t1 == t2
  {
    UserlandPathParts(k1, f1, t1);
    UserlandPathParts(k2, f2, t2);
    KindFromInitial(k1, k2);
    var r1, r2 := "to-" + t1 + ".rb", "to-" + t2 + ".rb";
    SeparatorSplitsUniquely(f1, r1, f2, r2, '-');
    assert t1 == r1[3..|r1| - 3];
    assert t2 == r2[3..|r2| - 3];
  }

  // ---------------------------------------------------------------------------
  // Loading a stored script

  /** A path argument given as a non-empty string (JavaScript truthiness). */
  predicate Given(path: Option<string>) {
    path.Some? && path.value != []
  }

  const MissingHead := "Missing StringProc file "
  const MissingTail := " and could not recover from source mapdb. This indicates incomplete git conversion."

  function MissingError(filePath: string): string {
    MissingHead + filePath + MissingTail
  }

  /** `sourceRooms.find(r => r.id.toString() === from)`: the first element
      whose id prints as `from`; an element without an id stops the search
      with a TypeError. */
  function FindRoom(rooms: seq<Value>, from: string): Result<Option<Value>, string> {
    if rooms == [] then Success(None)
    else
      match Get(Some(rooms[0]), "id")
      case Failure(e) => Failure(e)
      case Success(id) =>
        match ToText(id)
        case Failure(e) => Failure(e)
        case Success(text) => if text == from then Success(Some(rooms[0])) else FindRoom(rooms[1..], from)
  }

  /** The room's id can be read and prints as `from`. */
  predicate IdIs(room: Value, from: string) {
    Get(Some(room), "id").Success? && ToText(Get(Some(room), "id").value) == Success(from)
  }

  /** A room found is the first of the list whose id prints as `from`;
      finding nothing means every room has an id and none prints as `from`. */
  lemma {:induction false} FindRoomFinds(rooms: seq<Value>, from: string)
    ensures var r := FindRoom(rooms, from);
      r.Success? && r.value.Some? ==>
        exists k :: 0 <= k < |rooms| && rooms[k] == r.value.value && IdIs(rooms[k], from)
          && forall j :: 0 <= j < k ==> !IdIs(rooms[j], from)
    ensures FindRoom(rooms, from) == Success(None) ==>
      forall k :: 0 <= k < |rooms| ==> Get(Some(rooms[k]), "id").Success? && !IdIs(rooms[k], from)
    decreases |rooms|
  {
    if rooms != [] && Get(Some(rooms[0]), "id").Success? {
      var id := Get(Some(rooms[0]), "id").value;
      if ToText(id).Success? && ToText(id).value != from {
        FindRoomFinds(rooms[1..], from);
        var r := FindRoom(rooms, from);
        assert r == FindRoom(rooms[1..], from);
        if r.Success? && r.value.Some? {
          var k :| 0 <= k < |rooms[1..]| && rooms[1..][k] == r.value.value && IdIs(rooms[1..][k], from)
            && forall j :: 0 <= j < k ==> !IdIs(rooms[1..][j], from);
          assert rooms[k + 1] == rooms[1..][k];
          forall j | 0 <= j < k + 1 ensures !IdIs(rooms[j], from) {
            if j > 0 {
              assert rooms[j] == rooms[1..][j - 1];
            }
          }
        }
        if r == Success(None) {
          forall k | 0 <= k < |rooms| ensures Get(Some(rooms[k]), "id").Success? && !IdIs(rooms[k], from) {
            if k > 0 {
              assert rooms[k] == rooms[1..][k - 1];
            }
          }
        }
      }
    }
  }

  /** `recoverFromSource`: rebuilds a script from the `;e` value that the
      source room list holds for the same room, kind and target. Any failure
      along the way (file absent, unparsable, not a list, an element without
      an id, no such room, no script there) yields None. */
  function RecoverFromSource(kind: Kind, from: string, to: string, sourcePath: string,
                             fs: map<string, string>, rt: Runtime): Option<Proc>
  {
    if sourcePath !in fs then None
    else
      match rt.parse(fs[sourcePath])
      case Failure(_) => None
      case Success(rooms) =>
        if !rooms.Arr? then None
        else
          match FindRoom(rooms.items, from)
          case Failure(_) => None
          case Success(found) =>
            if !Truthy(found) then None
            else
              match Prop(found.value, kind.Name())
              case Failure(_) => None
              case Success(field) =>
                var source := OptGet(field, to);
                if IsSerializedProc(source) then Some(NewProc(kind, source.value.s, from, to)) else None
  }

  /** Recovery yields a proc only from a readable, parsable list of rooms, in
      which a room with id `from` holds a `;e` script for `to`; the proc is the
      one the constructor builds from that script. */
  lemma RecoverFromSourceFinds(kind: Kind, from: string, to: string, sourcePath: string,
                               fs: map<string, string>, rt: Runtime)
    ensures var r := RecoverFromSource(kind, from, to, sourcePath, fs, rt);
      r.Some? ==>
        && sourcePath in fs && rt.parse(fs[sourcePath]).Success?
        && var rooms := rt.parse(fs[sourcePath]).value;
        && rooms.Arr?
        && FindRoom(rooms.items, from).Success? && FindRoom(rooms.items, from).value.Some?
        && var room := FindRoom(rooms.items, from).value.value;
        && room in rooms.items && IdIs(room, from)
        && StartsWith(r.value.source, ";e")
        && Prop(room, kind.Name()).Success?
        && OptGet(Prop(room, kind.Name()).value, to) == Some(Str(r.value.source))
        && r.value == NewProc(kind, r.value.source, from, to)
  {
    var r := RecoverFromSource(kind, from, to, sourcePath, fs, rt);
    if r.Some? {
      var rooms := rt.parse(fs[sourcePath]).value;
      FindRoomFinds(rooms.items, from);
    }
  }

  /** `fromFilePath`: a script stored at `gitDir` joined with `filePath`
      becomes a proc whose location is that path and whose text is the file's
      trimmed content. A missing file is recovered from the source room list
      when one is given (an error if that fails) and is otherwise no proc. */
  function FromFilePath(kind: Kind, filePath: string, from: string, to: string, gitDir: string,
                        sourcePath: Option<string>, fs: map<string, string>, rt: Runtime)
    : Result<Option<Proc>, string>
  {
    var full := PathJoin(gitDir, filePath);
    if full in fs then
      Success(Some(Proc(kind, filePath, from, to, Trim(fs[full]), filePath,
        UserlandPath(kind, from, to), CartographerReference(kind, from, to))))
    else if Given(sourcePath) then
      match RecoverFromSource(kind, from, to, sourcePath.value, fs, rt)
      case Some(p) => Success(Some(p))
      case None => Failure(MissingError(filePath))
    else
      Success(None)
  }

  /** The three outcomes of loading a stored script: a file that exists gives
      the proc of its trimmed content, stored at the reference; a missing file
      is an error exactly when a source list is given and recovery from it
      fails; it is no proc exactly when no source list is given. Whichever
      way a proc comes, its bundle addresses derive from the kind and the two
      room ids. */
  lemma FromFilePathOutcomes(kind: Kind, filePath: string, from: string, to: string, gitDir: string,
                             sourcePath: Option<string>, fs: map<string, string>, rt: Runtime)
    ensures var r, full := FromFilePath(kind, filePath, from, to, gitDir, sourcePath, fs, rt), PathJoin(gitDir, filePath);
      && (full in fs ==> r.Success? && r.value.Some? && r.value.value.location == filePath
                         && r.value.value.ruby == Trim(fs[full]) && r.value.value.source == filePath)
      && (r.Failure? <==> full !in fs && Given(sourcePath)
                           && RecoverFromSource(kind, from, to, sourcePath.value, fs, rt).None?)
      && (r.Failure? ==> r.error == MissingError(filePath))
      && (r == Success(None) <==> full !in fs && !Given(sourcePath))
  {
  }

  /** A proc loaded from a stored script carries the kind, the two room ids
      and the bundle addresses that derive from them. */
  lemma FromFilePathAddresses(kind: Kind, filePath: string, from: string, to: string, gitDir: string,
                              sourcePath: Option<string>, fs: map<string, string>, rt: Runtime)
    ensures var r := FromFilePath(kind, filePath, from, to, gitDir, sourcePath, fs, rt);
      r.Success? && r.value.Some? ==>
        var p := r.value.value;
        && p.kind == kind && p.from == from && p.to == to
        && p.userlandPath == UserlandPath(kind, from, to)
        && p.cartographerReference == CartographerReference(kind, from, to)
  {
    if PathJoin(gitDir, filePath) !in fs && Given(sourcePath) {
      RecoverFromSourceFinds(kind, from, to, sourcePath.value, fs, rt);
    }
  }

  // ---------------------------------------------------------------------------
  // Rewriting a room's maps

  /** The arguments of `transform` after the room: whether to produce the
      userland bundle format, the git directory and the source room list. */
  datatype Setting = Setting(userland: bool, gitDir: Option<string>, sourceMapdbPath: Option<string>)

  /** What the rewrite does with one entry `to: source` of the room with id
      `id`: the entry's new value with the proc it produced, None when the
      entry stays as it is, or the error. */
  function RewriteEntry(kind: Kind, id: Option<Value>, to: string, source: Value,
                        mode: Setting, fs: map<string, string>, rt: Runtime)
    : Result<Option<(Value, Proc)>, string>
  {
    if IsSerializedProc(Some(source)) then
      match ToText(id)
      case Failure(e) => Failure(e)
      case Success(from) =>
        var p := NewProc(kind, source.s, from, to);
        Success(Some((Str(if mode.userland then p.cartographerReference else p.location), p)))
    else if IsFilePathReference(Some(source)) && mode.userland && Given(mode.gitDir) then
      match ToText(id)
      case Failure(e) => Failure(e)
      case Success(from) =>
        match FromFilePath(kind, source.s, from, to, mode.gitDir.value, mode.sourceMapdbPath, fs, rt)
        case Failure(e) => Failure(e)
        case Success(found) =>
          if found.Some? then Success(Some((Str(found.value.cartographerReference), found.value)))
          else Success(None)
    else
      Success(None)
  }

  /** The rewrite of one entry, as the loop of `transformWayto` /
      `transformTimeto` applies it to every entry of the map. */
  type EntryRewrite<P> = (string, Value) -> Result<Option<(Value, P)>, string>

  function EntryRewriter(kind: Kind, id: Option<Value>, mode: Setting, fs: map<string, string>, rt: Runtime)
    : EntryRewrite<Proc>
  {
    (to, source) => RewriteEntry(kind, id, to, source, mode, fs, rt)
  }

  /** The entries rewritten one after the other, from the first; the first
      error ends the rewrite. */
  function RewriteAll<P>(step: EntryRewrite<P>, entries: Fields): Result<(Fields, seq<P>), string> {
    if entries == [] then Success(([], []))
    else
      var last := entries[|entries| - 1];
      Extend(RewriteAll(step, entries[..|entries| - 1]), last, step(last.0, last.1))
  }

  /** The rewrite so far followed by the rewrite of one more entry. */
  function Extend<P>(done: Result<(Fields, seq<P>), string>, entry: (string, Value),
                    out: Result<Option<(Value, P)>, string>): Result<(Fields, seq<P>), string>
  {
    match done
    case Failure(e) => Failure(e)
    case Success(d) =>
      match out
      case Failure(e) => Failure(e)
      case Success(None) => Success((d.0 + [entry], d.1))
      case Success(Some(replaced)) => Success((d.0 + [(entry.0, replaced.0)], d.1 + [replaced.1]))
  }

  /** Once a prefix of the entries fails, the whole rewrite fails the same way. */
  lemma {:induction false} RewriteFailureSticks<P>(step: EntryRewrite<P>, entries: Fields, n: nat)
    requires n <= |entries|
    requires RewriteAll(step, entries[..n]).Failure?
    ensures RewriteAll(step, entries) == RewriteAll(step, entries[..n])
    decreases |entries|
  {
    if n < |entries| {
      assert entries[..|entries| - 1][..n] == entries[..n];
      RewriteFailureSticks(step, entries[..|entries| - 1], n);
    } else {
      assert entries[..n] == entries;
    }
  }

  /** An entry that fails to rewrite, after the entries before it were
      rewritten, fails the whole rewrite with its error. */
  lemma RewriteAllStops<P>(step: EntryRewrite<P>, entries: Fields, i: nat, error: string)
    requires i < |entries| && RewriteAll(step, entries[..i]).Success?
    requires step(entries[i].0, entries[i].1) == Failure(error)
    ensures RewriteAll(step, entries) == Failure(error)
  {
    assert entries[..i + 1][..i] == entries[..i];
    RewriteFailureSticks(step, entries, i + 1);
  }

  /** An entry left as it is extends the rewrite of the entries before it
      with that entry. */
  lemma RewriteAllKeeps<P>(step: EntryRewrite<P>, entries: Fields, i: nat, fields: Fields, procs: seq<P>)
    requires i < |entries| && |fields| == |entries| && fields[i] == entries[i]
    requires RewriteAll(step, entries[..i]) == Success((fields[..i], procs))
    requires step(entries[i].0, entries[i].1) == Success(None)
    ensures RewriteAll(step, entries[..i + 1]) == Success((fields[..i + 1], procs))
  {
    assert entries[..i + 1][..i] == entries[..i];
    assert fields[..i + 1] == fields[..i] + [entries[i]];
  }

  /** An entry replaced by `v` with the proc `p` extends the rewrite of the
      entries before it with the replaced entry and the proc. */
  lemma RewriteAllReplaces<P>(step: EntryRewrite<P>, entries: Fields, i: nat, fields: Fields, procs: seq<P>,
                              v: Value, p: P)
    requires i < |entries| && |fields| == |entries|
    requires RewriteAll(step, entries[..i]) == Success((fields[..i], procs))
    requires step(entries[i].0, entries[i].1) == Success(Some((v, p)))
    ensures RewriteAll(step, entries[..i + 1]) == Success((fields[i := (entries[i].0, v)][..i + 1], procs + [p]))
  {
    assert entries[..i + 1][..i] == entries[..i];
    assert fields[i := (entries[i].0, v)][..i + 1] == fields[..i] + [(entries[i].0, v)];
  }

  /** The procs of the entries a rewrite replaces, in entry order. */
  function Yielded<P>(step: EntryRewrite<P>, entries: Fields): seq<P> {
    if entries == [] then []
    else
      var last := entries[|entries| - 1];
      var out := step(last.0, last.1);
      Yielded(step, entries[..|entries| - 1]) + if out.Success? && out.value.Some? then [out.value.value.1] else []
  }

  /** A whole map rewritten, whatever the entry rewrite: it succeeds exactly
      when every entry does; it then keeps the keys in their order, keeps
      each entry the step leaves alone, gives each replaced entry its new
      value in place, and yields one proc per replaced entry, in order. */
  lemma {:induction false} RewriteAllShape<P>(step: EntryRewrite<P>, entries: Fields)
    ensures RewriteAll(step, entries).Success? <==>
      forall i :: 0 <= i < |entries| ==> step(entries[i].0, entries[i].1).Success?
    ensures RewriteAll(step, entries).Success? ==>
      var out := RewriteAll(step, entries).value;
      && |out.0| == |entries| && Keys(out.0) == Keys(entries)
      && (forall i :: 0 <= i < |entries| && step(entries[i].0, entries[i].1) == Success(None) ==>
            out.0[i] == entries[i])
      && (forall i :: 0 <= i < |entries| && step(entries[i].0, entries[i].1).Success?
                      && step(entries[i].0, entries[i].1).value.Some? ==>
            out.0[i] == (entries[i].0, step(entries[i].0, entries[i].1).value.value.0))
      && out.1 == Yielded(step, entries)
    decreases |entries|
  {
    if entries != [] {
      var n := |entries| - 1;
      var init, last := entries[..n], entries[n];
      RewriteAllShape(step, init);
      assert forall i :: 0 <= i < n ==> init[i] == entries[i];
      var r := RewriteAll(step, entries);
      if r.Success? {
        var d := RewriteAll(step, init).value;
        var out := RewriteAll(step, entries).value;
        assert out.0[..n] == d.0;
        assert Keys(out.0) == Keys(entries) by {
          assert forall i :: 0 <= i < |entries| ==> out.0[i].0 == entries[i].0;
        }
      }
    }
  }

  /** The loop of `transformWayto` / `transformTimeto` over the entries of
      one map: each entry is rewritten in place, in order, and the procs are
      collected in the same order; an error ends the loop. */
  method TransformEntries<P>(step: EntryRewrite<P>, entries: Fields) returns (r: Result<(Fields, seq<P>), string>)
    ensures r == RewriteAll(step, entries)
  {
    var fields := entries;
    var procs: seq<P> := [];
    var i := 0;
    while i < |entries|
      invariant 0 <= i <= |entries| && |fields| == |entries|
      invariant RewriteAll(step, entries[..i]) == Success((fields[..i], procs))
      invariant forall j :: i <= j < |entries| ==> fields[j] == entries[j]
    {
      var out := step(entries[i].0, entries[i].1);
      if out.Failure? {
        RewriteAllStops(step, entries, i, out.error);
        return Failure(out.error);
      }
      if out.value.Some? {
        RewriteAllReplaces(step, entries, i, fields, procs, out.value.value.0, out.value.value.1);
        fields := fields[i := (entries[i].0, out.value.value.0)];
        procs := procs + [out.value.value.1];
      } else {
        RewriteAllKeeps(step, entries, i, fields, procs);
      }
      i := i + 1;
    }
    assert entries[..i] == entries && fields[..i] == fields;
    return Success((fields, procs));
  }

  /** One map of the room (`wayto` or `timeto`) rewritten: reading the map
      from `null` or `undefined` fails, as does a missing map. An object map
      gets its members assigned by key and an array its elements by index;
      a string's characters are never rewritten (`StringMapUnchanged`), and
      a number or a boolean has no entries. */
  function RewriteKind(room: Value, kind: Kind, mode: Setting, fs: map<string, string>, rt: Runtime)
    : Result<(Value, seq<Proc>), string>
  {
    var field :- Prop(room, kind.Name());
    var entries :- Entries(field);
    var id := Prop(room, "id").value;
    var out :- RewriteAll(EntryRewriter(kind, id, mode, fs, rt), entries);
    if room.Obj? && field.value.Obj? then
      Success((Obj(Assign(room.fields, kind.Name(), Obj(out.0))), out.1))
    else if room.Obj? && field.value.Arr? then
      Success((Obj(Assign(room.fields, kind.Name(), Arr(ItemsOf(out.0)))), out.1))
    else
      Success((room, out.1))
  }

  /** `transform`: the `wayto` map rewritten, then the `timeto` map; the
      procs of the first followed by those of the second. */
  function Rewrite(room: Value, mode: Setting, fs: map<string, string>, rt: Runtime)
    : Result<(Value, seq<Proc>), string>
  {
    var first :- RewriteKind(room, Wayto, mode, fs, rt);
    var second :- RewriteKind(first.0, Timeto, mode, fs, rt);
    Success((second.0, first.1 + second.1))
  }

  /** `transformWayto` or `transformTimeto` on a whole room. */
  method TransformKind(room: Value, kind: Kind, mode: Setting, fs: map<string, string>, rt: Runtime)
    returns (r: Result<(Value, seq<Proc>), string>)
    ensures r == RewriteKind(room, kind, mode, fs, rt)
  {
    var field := Prop(room, kind.Name());
    if field.Failure? {
      return Failure(field.error);
    }
    var entries := Entries(field.value);
    if entries.Failure? {
      return Failure(entries.error);
    }
    var out := TransformEntries(EntryRewriter(kind, Prop(room, "id").value, mode, fs, rt), entries.value);
    if out.Failure? {
      return Failure(out.error);
    }
    if room.Obj? && field.value.value.Obj? {
      r := Success((Obj(Assign(room.fields, kind.Name(), Obj(out.value.0))), out.value.1));
    } else if room.Obj? && field.value.value.Arr? {
      r := Success((Obj(Assign(room.fields, kind.Name(), Arr(ItemsOf(out.value.0)))), out.value.1));
    } else {
      r := Success((room, out.value.1));
    }
  }

  /** `transform`. */
  method Transform(room: Value, mode: Setting, fs: map<string, string>, rt: Runtime)
    returns (r: Result<(Value, seq<Proc>), string>)
    ensures r == Rewrite(room, mode, fs, rt)
  {
    var first := TransformKind(room, Wayto, mode, fs, rt);
    if first.Failure? {
      return Failure(first.error);
    }
    var second := TransformKind(first.value.0, Timeto, mode, fs, rt);
    if second.Failure? {
      return Failure(second.error);
    }
    return Success((second.value.0, first.value.1 + second.value.1));
  }

  // ---------------------------------------------------------------------------
  // What the rewrite does

  /** Standard mode replaces a serialised script by its storage location. */
  function Relocated(kind: Kind, from: string, to: string, v: Value): Value {
    if IsSerializedProc(Some(v)) then Str(Location(kind, from, to)) else v
  }

  /** The standard-mode result, entry by entry: every `;e` entry replaced by
      its location, every other entry as it was. */
  function StandardFields(kind: Kind, from: string, entries: Fields): (r: Fields)
    ensures |r| == |entries|
    ensures forall k :: 0 <= k < |entries| ==>
      r[k] == (entries[k].0, Relocated(kind, from, entries[k].0, entries[k].1))
  {
    seq(|entries|, k requires 0 <= k < |entries| => (entries[k].0, Relocated(kind, from, entries[k].0, entries[k].1)))
  }

  /** One proc per `;e` entry, in entry order. */
  function StandardProcs(kind: Kind, from: string, entries: Fields): seq<Proc> {
    if entries == [] then []
    else
      var last := entries[|entries| - 1];
      StandardProcs(kind, from, entries[..|entries| - 1])
        + (if IsSerializedProc(Some(last.1)) then [NewProc(kind, last.1.s, from, last.0)] else [])
  }

  /** In standard mode a `;e` entry is replaced by its storage location and
      yields its proc; every other entry, file references included, stays. */
  lemma StandardEntry(kind: Kind, id: Option<Value>, from: string, to: string, source: Value,
                      mode: Setting, fs: map<string, string>, rt: Runtime)
    requires !mode.userland && ToText(id) == Success(from)
    ensures EntryRewriter(kind, id, mode, fs, rt)(to, source)
         == if IsSerializedProc(Some(source))
            then Success(Some((Str(Location(kind, from, to)), NewProc(kind, source.s, from, to))))
            else Success(None)
  {
  }

  /** In standard mode the rewrite is exactly the entry-by-entry replacement
      of `;e` entries by their locations, with one proc per replaced entry;
      file references and everything else stay as they were. */
  lemma {:induction false} StandardRewrite(kind: Kind, id: Option<Value>, from: string, entries: Fields,
                                           mode: Setting, fs: map<string, string>, rt: Runtime)
    requires !mode.userland && ToText(id) == Success(from)
    ensures RewriteAll(EntryRewriter(kind, id, mode, fs, rt), entries)
         == Success((StandardFields(kind, from, entries), StandardProcs(kind, from, entries)))
    decreases |entries|
  {
    if entries != [] {
      var init, last := entries[..|entries| - 1], entries[|entries| - 1];
      var step := EntryRewriter(kind, id, mode, fs, rt);
      StandardRewrite(kind, id, from, init, mode, fs, rt);
      StandardEntry(kind, id, from, last.0, last.1, mode, fs, rt);
      assert RewriteAll(step, entries) == Extend(RewriteAll(step, init), last, step(last.0, last.1));
      assert StandardFields(kind, from, entries)
          == StandardFields(kind, from, init) + [(last.0, Relocated(kind, from, last.0, last.1))];
      if !IsSerializedProc(Some(last.1)) {
        assert StandardProcs(kind, from, entries) == StandardProcs(kind, from, init) + [] == StandardProcs(kind, from, init);
        assert (last.0, Relocated(kind, from, last.0, last.1)) == last;
      }
    }
  }

  /** Rewriting in standard mode keeps the map's keys in their order. */
  lemma StandardKeepsKeys(kind: Kind, from: string, entries: Fields)
    ensures Keys(StandardFields(kind, from, entries)) == Keys(entries)
  {
  }

  /** A map already rewritten holds no `;e` entry, so rewriting it again
      changes nothing and produces no procs. */
  lemma {:induction false} StandardIdempotent(kind: Kind, from: string, entries: Fields)
    ensures StandardFields(kind, from, StandardFields(kind, from, entries)) == StandardFields(kind, from, entries)
    ensures StandardProcs(kind, from, StandardFields(kind, from, entries)) == []
    decreases |entries|
  {
    var out := StandardFields(kind, from, entries);
    forall k | 0 <= k < |out| ensures !IsSerializedProc(Some(out[k].1)) {
      NeverBoth(Some(out[k].1));
    }
    if entries != [] {
      var init := entries[..|entries| - 1];
      StandardIdempotent(kind, from, init);
      assert out[..|out| - 1] == StandardFields(kind, from, init);
    }
  }

  /** In userland mode an entry is either left as it was or replaced by the
      reference to its own bundled file; a `;e` entry is always replaced,
      and only `;e` entries and file references (the latter only when a git
      directory is given) are ever replaced. A replaced entry comes with its
      proc, for the same kind, rooms and bundle address. */
  lemma UserlandEntry(kind: Kind, id: Option<Value>, from: string, to: string, source: Value,
                      mode: Setting, fs: map<string, string>, rt: Runtime)
    requires mode.userland && ToText(id) == Success(from)
    requires RewriteEntry(kind, id, to, source, mode, fs, rt).Success?
    ensures var out := RewriteEntry(kind, id, to, source, mode, fs, rt).value;
      && (out.Some? ==> out.value.0 == Str(CartographerReference(kind, from, to))
                        && out.value.1.kind == kind && out.value.1.from == from && out.value.1.to == to
                        && out.value.1.userlandPath == UserlandPath(kind, from, to))
      && (IsSerializedProc(Some(source)) ==> out.Some?)
      && (out.Some? ==> IsSerializedProc(Some(source)) || (IsFilePathReference(Some(source)) && Given(mode.gitDir)))
  {
    if !IsSerializedProc(Some(source)) && IsFilePathReference(Some(source)) && Given(mode.gitDir) {
      FromFilePathAddresses(kind, source.s, from, to, mode.gitDir.value, mode.sourceMapdbPath, fs, rt);
    }
  }

  /** A file reference whose script can be neither read nor recovered, and
      for which no source list is given, is kept exactly as it was. */
  lemma UnresolvedReferenceKept(kind: Kind, id: Option<Value>, from: string, to: string, source: Value,
                                mode: Setting, fs: map<string, string>, rt: Runtime)
    requires IsFilePathReference(Some(source)) && ToText(id) == Success(from)
    requires mode.gitDir.Some? && PathJoin(mode.gitDir.value, source.s) !in fs && !Given(mode.sourceMapdbPath)
    ensures RewriteEntry(kind, id, to, source, mode, fs, rt) == Success(None)
  {
    NeverBoth(Some(source));
  }

  /** Standard-mode rewrite of one object map of a room: the map is replaced
      by its entry-by-entry rewrite, and the procs are those of its `;e`
      entries. */
  lemma StandardRewriteKind(fields: Fields, kind: Kind, entries: Fields, from: string,
                            mode: Setting, fs: map<string, string>, rt: Runtime)
    requires !mode.userland
    requires Lookup(fields, kind.Name()) == Some(Obj(entries))
    requires ToText(Lookup(fields, "id")) == Success(from)
    ensures RewriteKind(Obj(fields), kind, mode, fs, rt)
         == Success((Obj(Assign(fields, kind.Name(), Obj(StandardFields(kind, from, entries)))),
                     StandardProcs(kind, from, entries)))
  {
    StandardRewrite(kind, Lookup(fields, "id"), from, entries, mode, fs, rt);
  }

  /** Standard-mode `transform` of a room with object maps: both maps are
      rewritten entry by entry, the id and every other property are
      untouched, and the procs are those of `wayto` followed by those of
      `timeto`. */
  lemma StandardTransform(fields: Fields, wayto: Fields, timeto: Fields, from: string,
                          mode: Setting, fs: map<string, string>, rt: Runtime)
    requires !mode.userland
    requires Lookup(fields, "wayto") == Some(Obj(wayto)) && Lookup(fields, "timeto") == Some(Obj(timeto))
    requires ToText(Lookup(fields, "id")) == Success(from)
    ensures var r := Rewrite(Obj(fields), mode, fs, rt);
      && r.Success?
      && r.value.0.Obj?
      && Lookup(r.value.0.fields, "wayto") == Some(Obj(StandardFields(Wayto, from, wayto)))
      && Lookup(r.value.0.fields, "timeto") == Some(Obj(StandardFields(Timeto, from, timeto)))
      && (forall key :: key != "wayto" && key != "timeto" ==> Lookup(r.value.0.fields, key) == Lookup(fields, key))
      && r.value.1 == StandardProcs(Wayto, from, wayto) + StandardProcs(Timeto, from, timeto)
  {
    var w, t := Obj(StandardFields(Wayto, from, wayto)), Obj(StandardFields(Timeto, from, timeto));
    var f1 := Assign(fields, "wayto", w);
    var f2 := Assign(f1, "timeto", t);
    StandardRewriteKind(fields, Wayto, wayto, from, mode, fs, rt);
    AssignKeepsOthers(fields, "wayto", w, "id");
    AssignKeepsOthers(fields, "wayto", w, "timeto");
    StandardRewriteKind(f1, Timeto, timeto, from, mode, fs, rt);
    AssignSets(fields, "wayto", w);
    AssignSets(f1, "timeto", t);
    AssignKeepsOthers(f1, "timeto", t, "wayto");
    forall key | key != "wayto" && key != "timeto"
      ensures Lookup(f2, key) == Lookup(fields, key)
    {
      AssignKeepsOthers(fields, "wayto", w, key);
      AssignKeepsOthers(f1, "timeto", t, key);
    }
  }

  /** One object map of an object room rewritten: the map's members are
      rewritten and the map is assigned back under its key. */
  lemma RewriteObjectMap(fields: Fields, kind: Kind, entries: Fields,
                         mode: Setting, fs: map<string, string>, rt: Runtime)
    requires Lookup(fields, kind.Name()) == Some(Obj(entries))
    ensures var w := RewriteAll(EntryRewriter(kind, Lookup(fields, "id"), mode, fs, rt), entries);
      RewriteKind(Obj(fields), kind, mode, fs, rt)
        == if w.Failure? then Failure(w.error)
           else Success((Obj(Assign(fields, kind.Name(), Obj(w.value.0))), w.value.1))
  {
  }

  /** `transform` of a room whose two maps are objects, in either mode: it
      succeeds exactly when both maps' rewrites do, fails with the first
      error otherwise, and puts each rewritten map in its place, leaves
      every other property alone and returns the `wayto` procs before the
      `timeto` procs. */
  lemma TransformMaps(fields: Fields, wayto: Fields, timeto: Fields,
                      mode: Setting, fs: map<string, string>, rt: Runtime)
    requires Lookup(fields, "wayto") == Some(Obj(wayto)) && Lookup(fields, "timeto") == Some(Obj(timeto))
    ensures var id := Lookup(fields, "id");
      var w, t := RewriteAll(EntryRewriter(Wayto, id, mode, fs, rt), wayto),
                  RewriteAll(EntryRewriter(Timeto, id, mode, fs, rt), timeto);
      var r := Rewrite(Obj(fields), mode, fs, rt);
      && (r.Success? <==> w.Success? && t.Success?)
      && (w.Failure? ==> r == Failure(w.error))
      && (w.Success? && t.Failure? ==> r == Failure(t.error))
      && (r.Success? ==>
            && r.value.0.Obj?
            && Lookup(r.value.0.fields, "wayto") == Some(Obj(w.value.0))
            && Lookup(r.value.0.fields, "timeto") == Some(Obj(t.value.0))
            && (forall key :: key != "wayto" && key != "timeto" ==> Lookup(r.value.0.fields, key) == Lookup(fields, key))
            && r.value.1 == w.value.1 + t.value.1)
  {
    var id := Lookup(fields, "id");
    var w := RewriteAll(EntryRewriter(Wayto, id, mode, fs, rt), wayto);
    RewriteObjectMap(fields, Wayto, wayto, mode, fs, rt);
    if w.Success? {
      var f1 := Assign(fields, "wayto", Obj(w.value.0));
      AssignKeepsOthers(fields, "wayto", Obj(w.value.0), "id");
      AssignKeepsOthers(fields, "wayto", Obj(w.value.0), "timeto");
      RewriteObjectMap(f1, Timeto, timeto, mode, fs, rt);
      var t := RewriteAll(EntryRewriter(Timeto, id, mode, fs, rt), timeto);
      if t.Success? {
        var f2 := Assign(f1, "timeto", Obj(t.value.0));
        AssignSets(fields, "wayto", Obj(w.value.0));
        AssignSets(f1, "timeto", Obj(t.value.0));
        AssignKeepsOthers(f1, "timeto", Obj(t.value.0), "wayto");
        forall key | key != "wayto" && key != "timeto"
          ensures Lookup(f2, key) == Lookup(fields, key)
        {
          AssignKeepsOthers(fields, "wayto", Obj(w.value.0), key);
          AssignKeepsOthers(f1, "timeto", Obj(t.value.0), key);
        }
      }
    }
  }


  /** One object map rewritten in userland mode: the keys stay in their
      order, each entry either stays or becomes the reference to its own
      bundled file, every `;e` entry is replaced, and only `;e` entries and
      (when a git directory is given) stored-script references are; the
      procs are those of the replaced entries, in order, each for its own
      entry. */
  lemma UserlandMap(kind: Kind, id: Option<Value>, from: string, entries: Fields,
                    mode: Setting, fs: map<string, string>, rt: Runtime)
    requires mode.userland && ToText(id) == Success(from)
    requires RewriteAll(EntryRewriter(kind, id, mode, fs, rt), entries).Success?
    ensures var step := EntryRewriter(kind, id, mode, fs, rt);
      var out := RewriteAll(step, entries).value;
      && |out.0| == |entries| && Keys(out.0) == Keys(entries)
      && (forall i :: 0 <= i < |entries| ==>
            out.0[i] == entries[i] || out.0[i] == (entries[i].0, Str(CartographerReference(kind, from, entries[i].0))))
      && (forall i :: 0 <= i < |entries| && IsSerializedProc(Some(entries[i].1)) ==>
            out.0[i] == (entries[i].0, Str(CartographerReference(kind, from, entries[i].0))))
      && (forall i :: 0 <= i < |entries| && out.0[i] != entries[i] ==>
            IsSerializedProc(Some(entries[i].1)) || (IsFilePathReference(Some(entries[i].1)) && Given(mode.gitDir)))
      && out.1 == Yielded(step, entries)
  {
    var step := EntryRewriter(kind, id, mode, fs, rt);
    RewriteAllShape(step, entries);
    forall i | 0 <= i < |entries|
      ensures RewriteEntry(kind, id, entries[i].0, entries[i].1, mode, fs, rt).Success?
    {
      assert step(entries[i].0, entries[i].1).Success?;
    }
    forall i | 0 <= i < |entries|
      ensures var e := RewriteEntry(kind, id, entries[i].0, entries[i].1, mode, fs, rt).value;
        && (e.Some? ==> e.value.0 == Str(CartographerReference(kind, from, entries[i].0)))
        && (IsSerializedProc(Some(entries[i].1)) ==> e.Some?)
        && (e.Some? ==> IsSerializedProc(Some(entries[i].1)) || (IsFilePathReference(Some(entries[i].1)) && Given(mode.gitDir)))
    {
      UserlandEntry(kind, id, from, entries[i].0, entries[i].1, mode, fs, rt);
    }
  }

  /** Userland-mode `transform` of a room whose two maps are objects: when it
      succeeds, each map keeps its keys and is rewritten as `UserlandMap`
      states, every other property stays, and the procs are those of
      `wayto`'s replaced entries followed by those of `timeto`'s. */
  lemma UserlandTransform(fields: Fields, wayto: Fields, timeto: Fields, from: string,
                          mode: Setting, fs: map<string, string>, rt: Runtime)
    requires mode.userland
    requires Lookup(fields, "wayto") == Some(Obj(wayto)) && Lookup(fields, "timeto") == Some(Obj(timeto))
    requires ToText(Lookup(fields, "id")) == Success(from)
    requires Rewrite(Obj(fields), mode, fs, rt).Success?
    ensures var r, id := Rewrite(Obj(fields), mode, fs, rt).value, Lookup(fields, "id");
      var w, t := RewriteAll(EntryRewriter(Wayto, id, mode, fs, rt), wayto),
                  RewriteAll(EntryRewriter(Timeto, id, mode, fs, rt), timeto);
      && w.Success? && t.Success?
      && r.0.Obj?
      && Lookup(r.0.fields, "wayto") == Some(Obj(w.value.0)) && Keys(w.value.0) == Keys(wayto)
      && Lookup(r.0.fields, "timeto") == Some(Obj(t.value.0)) && Keys(t.value.0) == Keys(timeto)
      && (forall key :: key != "wayto" && key != "timeto" ==> Lookup(r.0.fields, key) == Lookup(fields, key))
      && r.1 == Yielded(EntryRewriter(Wayto, id, mode, fs, rt), wayto)
              + Yielded(EntryRewriter(Timeto, id, mode, fs, rt), timeto)
  {
    var id := Lookup(fields, "id");
    var ws, ts := EntryRewriter(Wayto, id, mode, fs, rt), EntryRewriter(Timeto, id, mode, fs, rt);
    TransformMaps(fields, wayto, timeto, mode, fs, rt);
    assert RewriteAll(ws, wayto).Success? && RewriteAll(ts, timeto).Success?;
    var w, t := RewriteAll(ws, wayto).value, RewriteAll(ts, timeto).value;
    RewriteAllShape(ws, wayto);
    RewriteAllShape(ts, timeto);
    assert Keys(w.0) == Keys(wayto) && w.1 == Yielded(ws, wayto);
    assert Keys(t.0) == Keys(timeto) && t.1 == Yielded(ts, timeto);
  }

  /** A string's entries are single characters, which are neither scripts
      nor stored-script references, so the rewrite leaves each one alone. */
  lemma CharNeverRewritten(kind: Kind, id: Option<Value>, to: string, c: char,
                           mode: Setting, fs: map<string, string>, rt: Runtime)
    ensures RewriteEntry(kind, id, to, Str([c]), mode, fs, rt) == Success(None)
  {
    assert !StartsWith([c], ";e");
    assert !StartsWith([c], "/rooms/");
  }

  /** A map that is a string is left as it is and yields no procs. */
  lemma StringMapUnchanged(fields: Fields, kind: Kind, s: string, mode: Setting, fs: map<string, string>, rt: Runtime)
    requires Lookup(fields, kind.Name()) == Some(Str(s))
    ensures RewriteKind(Obj(fields), kind, mode, fs, rt) == Success((Obj(fields), []))
  {
    var step := EntryRewriter(kind, Lookup(fields, "id"), mode, fs, rt);
    var entries := CharEntries(s);
    forall i | 0 <= i < |entries|
      ensures step(entries[i].0, entries[i].1) == Success(None)
    {
      CharNeverRewritten(kind, Lookup(fields, "id"), entries[i].0, s[i], mode, fs, rt);
    }
    NothingYielded(step, entries);
    RewriteAllShape(step, entries);
  }

  /** Entries that all stay yield no procs. */
  lemma {:induction false} NothingYielded<P>(step: EntryRewrite<P>, entries: Fields)
    requires forall i :: 0 <= i < |entries| ==> step(entries[i].0, entries[i].1) == Success(None)
    ensures Yielded(step, entries) == []
    decreases |entries|
  {
    if entries != [] {
      var n := |entries| - 1;
      assert forall i :: 0 <= i < n ==> entries[..n][i] == entries[i];
      NothingYielded(step, entries[..n]);
    }
  }

  /** A map that is an array has its elements rewritten in place, by index:
      the array keeps its length, an element the rewrite leaves alone stays,
      a replaced element takes its new value, and the procs are those of the
      replaced elements, in order. */
  lemma ArrayMapRewritten(fields: Fields, kind: Kind, items: seq<Value>,
                          mode: Setting, fs: map<string, string>, rt: Runtime)
    requires Lookup(fields, kind.Name()) == Some(Arr(items))
    requires RewriteKind(Obj(fields), kind, mode, fs, rt).Success?
    ensures var step, r := EntryRewriter(kind, Lookup(fields, "id"), mode, fs, rt), RewriteKind(Obj(fields), kind, mode, fs, rt).value;
      var a := Lookup(r.0.fields, kind.Name());
      && r.0.Obj? && a.Some? && a.value.Arr? && |a.value.items| == |items|
      && (forall k :: 0 <= k < |items| && step(NatToString(k), items[k]) == Success(None) ==> a.value.items[k] == items[k])
      && (forall k :: 0 <= k < |items| && step(NatToString(k), items[k]).Success? && step(NatToString(k), items[k]).value.Some? ==>
            a.value.items[k] == step(NatToString(k), items[k]).value.value.0)
      && r.1 == Yielded(step, ItemEntries(items))
  {
    var step := EntryRewriter(kind, Lookup(fields, "id"), mode, fs, rt);
    var entries := ItemEntries(items);
    RewriteAllShape(step, entries);
    var out := RewriteAll(step, entries).value;
    AssignSets(fields, kind.Name(), Arr(ItemsOf(out.0)));
  }

  /** What the rewrite puts in place of an entry is always a string. */
  lemma ReplacementIsText(kind: Kind, id: Option<Value>, to: string, source: Value,
                          mode: Setting, fs: map<string, string>, rt: Runtime)
    ensures var e := RewriteEntry(kind, id, to, source, mode, fs, rt);
      e.Success? && e.value.Some? ==> e.value.value.0.Str?
  {
  }

  /** Rewriting the entries of a map keeps their keys and leaves only
      canonical values behind. */
  lemma RewriteAllKeepsCanonical(kind: Kind, id: Option<Value>, entries: Fields,
                                 mode: Setting, fs: map<string, string>, rt: Runtime)
    requires forall i :: 0 <= i < |entries| ==> Canonical(entries[i].1)
    requires RewriteAll(EntryRewriter(kind, id, mode, fs, rt), entries).Success?
    ensures var out := RewriteAll(EntryRewriter(kind, id, mode, fs, rt), entries).value;
      && Keys(out.0) == Keys(entries)
      && forall i :: 0 <= i < |out.0| ==> Canonical(out.0[i].1)
  {
    var step := EntryRewriter(kind, id, mode, fs, rt);
    RewriteAllShape(step, entries);
    forall i | 0 <= i < |entries|
      ensures var e := step(entries[i].0, entries[i].1); e.Success? && e.value.Some? ==> e.value.value.0.Str?
    {
      ReplacementIsText(kind, id, entries[i].0, entries[i].1, mode, fs, rt);
    }
  }

  /** Rewriting one map of a canonical room leaves it canonical. */
  lemma RewriteKindKeepsCanonical(room: Value, kind: Kind, mode: Setting, fs: map<string, string>, rt: Runtime)
    requires Canonical(room) && RewriteKind(room, kind, mode, fs, rt).Success?
    ensures Canonical(RewriteKind(room, kind, mode, fs, rt).value.0)
  {
    if room.Obj? {
      var field := Lookup(room.fields, kind.Name());
      var id := Lookup(room.fields, "id");
      if field.Some? && (field.value.Obj? || field.value.Arr?) {
        LookupCanonical(room.fields, kind.Name());
        var entries := Entries(field).value;
        assert forall i :: 0 <= i < |entries| ==> Canonical(entries[i].1);
        RewriteAllKeepsCanonical(kind, id, entries, mode, fs, rt);
        var out := RewriteAll(EntryRewriter(kind, id, mode, fs, rt), entries).value;
        var map' := if field.value.Obj? then Obj(out.0) else Arr(ItemsOf(out.0));
        assert Canonical(map');
        AssignKeepsCanonical(room.fields, kind.Name(), map');
      }
    }
  }

  /** `transform` of a canonical room gives a canonical room: its keys keep
      their order and every value it puts in place is a string. */
  lemma RewriteKeepsCanonical(room: Value, mode: Setting, fs: map<string, string>, rt: Runtime)
    requires Canonical(room) && Rewrite(room, mode, fs, rt).Success?
    ensures Canonical(Rewrite(room, mode, fs, rt).value.0)
  {
    RewriteKindKeepsCanonical(room, Wayto, mode, fs, rt);
    RewriteKindKeepsCanonical(RewriteKind(room, Wayto, mode, fs, rt).value.0, Timeto, mode, fs, rt);
  }
}
