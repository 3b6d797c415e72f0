/** The string procs of the older snapshot under `mapdb/`: the same `;e`
    sentinel and the same storage location, but no bundle addresses, no
    userland mode and no stored-file loading; each proc is formatted on its
    own as soon as it is written. */
module LegacyStringProcs {
  import opened Wrappers
  import opened Text
  import opened Js
  import opened StringProcs
  import ProcBatch
  import Files

  /** The older string proc; `dir` is never read and is not modelled. */
  datatype Proc = Proc(kind: Kind, source: string, from: string, to: string, ruby: string, location: string)

  /** The fields the older proc shares with the current one. */
  function Legacy(p: StringProcs.Proc): Proc {
    Proc.Proc(p.kind, p.source, p.from, p.to, p.ruby, p.location)
  }

  function Legacies(ps: seq<StringProcs.Proc>): (r: seq<Proc>)
    ensures |r| == |ps| && forall k :: 0 <= k < |ps| ==> r[k] == Legacy(ps[k])
  {
    seq(|ps|, k requires 0 <= k < |ps| => Legacy(ps[k]))
  }

  /** The constructor: the script text is the source after the sentinel,
      trimmed, and the location is `/rooms/{from}/{kind}/stringproc-{to}.rb`,
      exactly as the current constructor derives them. */
  function NewProc(kind: Kind, source: string, from: string, to: string): (p: Proc)
    ensures p == Legacy(StringProcs.NewProc(kind, source, from, to))
    ensures p.location == Location(kind, from, to)
  {
    Proc.Proc(kind, source, from, to, Trim(Slice(source, 2)), Location(kind, from, to))
  }

  /** What the `flatMap` of `transformWayto` / `transformTimeto` does with
      one entry `to: source` of the room with id `id`: a `;e` entry is
      replaced by its location and yields its proc, every other entry stays. */
  function RewriteEntry(kind: Kind, id: Option<Value>, to: string, source: Value)
    : Result<Option<(Value, Proc)>, string>
  {
    if IsSerializedProc(Some(source)) then
      match ToText(id)
      case Failure(e) => Failure(e)
      case Success(from) =>
        var p := NewProc(kind, source.s, from, to);
        Success(Some((Str(p.location), p)))
    else
      Success(None)
  }

  function EntryRewriter(kind: Kind, id: Option<Value>): EntryRewrite<Proc> {
    (to, source) => RewriteEntry(kind, id, to, source)
  }

  /** One map of the room rewritten, as the current `transformWayto` /
      `transformTimeto` do it, with the older entry rewrite. */
  function RewriteKind(room: Value, kind: Kind): Result<(Value, seq<Proc>), string> {
    var field :- Prop(room, kind.Name());
    var entries :- Entries(field);
    var out :- RewriteAll(EntryRewriter(kind, Prop(room, "id").value), entries);
    if room.Obj? && field.value.Obj? then
      Success((Obj(Assign(room.fields, kind.Name(), Obj(out.0))), out.1))
    else if room.Obj? && field.value.Arr? then
      Success((Obj(Assign(room.fields, kind.Name(), Arr(ItemsOf(out.0)))), out.1))
    else
      Success((room, out.1))
  }

  /** `transform`: `wayto` rewritten, then `timeto`; the procs of the first
      followed by those of the second. */
  function Rewrite(room: Value): Result<(Value, seq<Proc>), string> {
    var first :- RewriteKind(room, Wayto);
    var second :- RewriteKind(first.0, Timeto);
    Success((second.0, first.1 + second.1))
  }

  /** A current entry rewrite seen through the older proc. */
  function Relabeled(out: Result<Option<(Value, StringProcs.Proc)>, string>): Result<Option<(Value, Proc)>, string> {
    match out
    case Failure(e) => Failure(e)
    case Success(None) => Success(None)
    case Success(Some(x)) => Success(Some((x.0, Legacy(x.1))))
  }

  function RelabeledAll(r: Result<(Value, seq<StringProcs.Proc>), string>): Result<(Value, seq<Proc>), string> {
    match r
    case Failure(e) => Failure(e)
    case Success(x) => Success((x.0, Legacies(x.1)))
  }

  function RelabeledFields(r: Result<(Fields, seq<StringProcs.Proc>), string>): Result<(Fields, seq<Proc>), string> {
    match r
    case Failure(e) => Failure(e)
    case Success(x) => Success((x.0, Legacies(x.1)))
  }

  /** The older entry rewrite is the current one in standard mode. */
  lemma EntryIsStandard(kind: Kind, id: Option<Value>, to: string, source: Value,
                        mode: Setting, fs: map<string, string>, rt: Runtime)
    requires !mode.userland
    ensures RewriteEntry(kind, id, to, source) == Relabeled(StringProcs.RewriteEntry(kind, id, to, source, mode, fs, rt))
  {
  }

  /** Over a whole map, the older rewrite is the current one in standard
      mode: the same entries, and the same procs seen through the older
      proc. */
  lemma {:induction false} RewriteAllIsStandard(kind: Kind, id: Option<Value>, entries: Fields,
                                                mode: Setting, fs: map<string, string>, rt: Runtime)
    requires !mode.userland
    ensures RewriteAll(EntryRewriter(kind, id), entries)
         == RelabeledFields(RewriteAll(StringProcs.EntryRewriter(kind, id, mode, fs, rt), entries))
    decreases |entries|
  {
    if entries != [] {
      var init, last := entries[..|entries| - 1], entries[|entries| - 1];
      RewriteAllIsStandard(kind, id, init, mode, fs, rt);
      EntryIsStandard(kind, id, last.0, last.1, mode, fs, rt);
      var done := RewriteAll(StringProcs.EntryRewriter(kind, id, mode, fs, rt), init);
      var out := StringProcs.RewriteEntry(kind, id, last.0, last.1, mode, fs, rt);
      if done.Success? && out.Success? && out.value.Some? {
        assert Legacies(done.value.1 + [out.value.value.1]) == Legacies(done.value.1) + [Legacy(out.value.value.1)];
      }
    }
  }

  /** One map of a room rewritten the older way is the same map rewritten
      the current way in standard mode. */
  lemma RewriteKindIsStandard(room: Value, kind: Kind, mode: Setting, fs: map<string, string>, rt: Runtime)
    requires !mode.userland
    ensures RewriteKind(room, kind) == RelabeledAll(StringProcs.RewriteKind(room, kind, mode, fs, rt))
  {
    match Prop(room, kind.Name())
    case Failure(_) =>
    case Success(field) =>
      match Entries(field)
      case Failure(_) =>
      case Success(entries) => RewriteAllIsStandard(kind, Prop(room, "id").value, entries, mode, fs, rt);
  }

  lemma LegaciesAppend(a: seq<StringProcs.Proc>, b: seq<StringProcs.Proc>)
    ensures Legacies(a + b) == Legacies(a) + Legacies(b)
  {
  }

  /** The older `transform` of a room is the current one in standard mode:
      the same rewritten room, or the same error, and the same procs seen
      through the older proc. */
  lemma RewriteIsStandard(room: Value, mode: Setting, fs: map<string, string>, rt: Runtime)
    requires !mode.userland
    ensures Rewrite(room) == RelabeledAll(StringProcs.Rewrite(room, mode, fs, rt))
  {
    RewriteKindIsStandard(room, Wayto, mode, fs, rt);
    match StringProcs.RewriteKind(room, Wayto, mode, fs, rt)
    case Failure(_) =>
    case Success(first) =>
      RewriteKindIsStandard(first.0, Timeto, mode, fs, rt);
      match StringProcs.RewriteKind(first.0, Timeto, mode, fs, rt)
      case Failure(_) =>
      case Success(second) => LegaciesAppend(first.1, second.1);
  }

  /** On a room whose maps are objects, every `;e` entry of `wayto` and of
      `timeto` is replaced by its location and every other entry and
      property stays; the procs are one per replaced entry, those of
      `wayto` first. */
  lemma RewriteShape(fields: Fields, wayto: Fields, timeto: Fields, from: string)
    requires Lookup(fields, "wayto") == Some(Obj(wayto)) && Lookup(fields, "timeto") == Some(Obj(timeto))
    requires ToText(Lookup(fields, "id")) == Success(from)
    ensures var r := Rewrite(Obj(fields));
      && r.Success?
      && r.value.0.Obj?
      && Lookup(r.value.0.fields, "wayto") == Some(Obj(StandardFields(Wayto, from, wayto)))
      && Lookup(r.value.0.fields, "timeto") == Some(Obj(StandardFields(Timeto, from, timeto)))
      && (forall key :: key != "wayto" && key != "timeto" ==> Lookup(r.value.0.fields, key) == Lookup(fields, key))
      && r.value.1 == Legacies(StandardProcs(Wayto, from, wayto) + StandardProcs(Timeto, from, timeto))
  {
    // Standard mode reads no file and calls no runtime function, so any
    // runtime will do.
    var mode := Setting(false, None, None);
    var rt := Runtime(_ => Success(Null), _ => "", _ => "", v => Success(v));
    StandardTransform(fields, wayto, timeto, from, mode, map[], rt);
    RewriteIsStandard(Obj(fields), mode, map[], rt);
  }

  /** `transformWayto` or `transformTimeto`: the map's entries rewritten in
      place, in order. */
  method TransformKind(room: Value, kind: Kind) returns (r: Result<(Value, seq<Proc>), string>)
    ensures r == RewriteKind(room, kind)
  {
    var field := Prop(room, kind.Name());
    if field.Failure? {
      return Failure(field.error);
    }
    var entries := Entries(field.value);
    if entries.Failure? {
      return Failure(entries.error);
    }
    var out := TransformEntries(EntryRewriter(kind, Prop(room, "id").value), entries.value);
    if out.Failure? {
      return Failure(out.error);
    }
    if room.Obj? && field.value.value.Obj? {
      r := Success((Obj(Assign(room.fields, kind.Name(), Obj(out.value.0))), out.value.1));
    } else if room.Obj? && field.value.value.Arr? {
      r := Success((Obj(Assign(room.fields, kind.Name(), Arr(ItemsOf(out.value.0)))), out.value.1));
    } else {
      r := Success((room, out.value.1));
    }
  }

  /** `transform` */
  method Transform(room: Value) returns (r: Result<(Value, seq<Proc>), string>)
    ensures r == Rewrite(room)
  {
    var first := TransformKind(room, Wayto);
    if first.Failure? {
      return Failure(first.error);
    }
    var second := TransformKind(first.value.0, Timeto);
    if second.Failure? {
      return Failure(second.error);
    }
    return Success((second.value.0, first.value.1 + second.value.1));
  }

  /** What the formatter run on one script file reports: its output with
      `"../"` removed, under the file's location, exactly when it printed
      anything; a failure to run raises. */
  lemma FormatFileOutcomes(fmt: ProcBatch.Formatter, location: string)
    ensures var out, r := fmt.run([fmt.route(location)]), ProcBatch.FormatFile(fmt, location);
      && (r.Failure? <==> out.Failure?)
      && (out.Success? ==> (r.value.Some? <==> out.value != []))
      && (out.Success? && out.value != [] ==> r.value.value == Report(ReplaceAll(out.value, "../", ""), location))
  {
  }

  /** `format`: the script written at its location, then the formatter run
      on that file; `{err, file}` when it printed anything, `{ok: true}`
      (None) otherwise. */
  method Format(p: Proc, disk: Files.Disk, fmt: ProcBatch.Formatter) returns (r: Result<Option<Report>, string>)
    modifies disk
    ensures disk.files == old(disk.files)[p.location := p.ruby]
    ensures r == ProcBatch.FormatFile(fmt, p.location)
  {
    disk.Write(p.location, p.ruby);
    var stdout := fmt.run([fmt.route(p.location)]);
    if stdout.Failure? {
      return Failure(stdout.error);
    }
    if |stdout.value| > 0 {
      return Success(Some(Report(ReplaceAll(stdout.value, "../", ""), p.location)));
    }
    return Success(None);
  }
}
