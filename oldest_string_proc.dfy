/** The string proc of the oldest layer, `mapdb/string-proc.ts`: a script
    recognised by the same `;e` sentinel, but kept with its sentinel and
    stored at `{from}/{to}/proc.rb`. */
module OldestStringProcs {
  import opened Wrappers
  import opened Text
  import LegacyStringProcs
  import StringProcs

  const Sentinel := ";e"

  /** `hasPrefix` */
  predicate HasPrefix(source: string) {
    StartsWith(source, Sentinel)
  }

  datatype Proc = Proc(source: string, from: string, to: string, ruby: string)

  /** The message the constructor throws for a source without the sentinel. */
  function Invalid(source: string): string {
    "invalid StringProc\nsource=" + source
  }

  /** The constructor: a source without the sentinel is refused; otherwise
      the script is the source from the sentinel's first occurrence on,
      which, the sentinel being at the start, is the whole source. */
  function New(source: string, from: string, to: string): (r: Result<Proc, string>)
    ensures r.Success? <==> HasPrefix(source)
    ensures r.Failure? ==> r.error == Invalid(source)
    ensures r.Success? ==> r.value == Proc(source, from, to, source)
  {
    if !HasPrefix(source) then Failure(Invalid(source))
    else
      var at := IndexOf(source, Sentinel);
      Success(Proc(source, from, to, Slice(source, at.value)))
  }

  /** The script keeps the sentinel, where the later string procs drop it
      and trim what follows. */
  lemma KeepsSentinel(source: string, from: string, to: string, kind: StringProcs.Kind)
    requires HasPrefix(source)
    ensures New(source, from, to).value.ruby[..2] == Sentinel
    ensures LegacyStringProcs.NewProc(kind, source, from, to).ruby == Trim(source[2..])
    ensures StringProcs.NewProc(kind, source, from, to).ruby == Trim(source[2..])
  {
  }

  /** `location()`: `path.join(from, to, "proc.rb")`. */
  function Location(p: Proc): string {
    PathJoin(PathJoin(p.from, p.to), "proc.rb")
  }

  /** A path component without separators. */
  predicate Simple(component: string) {
    component != [] && '/' !in component
  }

  /** For simple components the location is `{from}/{to}/proc.rb`. */
  lemma LocationShape(p: Proc)
    requires Simple(p.from) && Simple(p.to)
    ensures Location(p) == p.from + "/" + p.to + "/proc.rb"
  {
    assert p.to[|p.to| - 1] in p.to;
    assert p.from[|p.from| - 1] in p.from;
    assert p.to[0] in p.to;
  }

  /** Procs between different pairs of simple rooms are stored apart. */
  lemma LocationsDistinct(p: Proc, q: Proc)
    requires Simple(p.from) && Simple(p.to) && Simple(q.from) && Simple(q.to)
    requires Location(p) == Location(q)
    ensures p.from == q.from && p.to == q.to
  {
    LocationShape(p);
    LocationShape(q);
    assert p.from + ['/'] + (p.to + "/proc.rb") == Location(p);
    assert q.from + ['/'] + (q.to + "/proc.rb") == Location(q);
    SeparatorSplitsUniquely(p.from, p.to + "/proc.rb", q.from, q.to + "/proc.rb", '/');
    assert p.to + ['/'] + "proc.rb" == p.to + "/proc.rb";
    assert q.to + ['/'] + "proc.rb" == q.to + "/proc.rb";
    SeparatorSplitsUniquely(p.to, "proc.rb", q.to, "proc.rb", '/');
  }
}
