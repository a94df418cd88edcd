/**
 * The configuration-source resolver of AtlantisService: it turns a
 * descriptor string into the stream the Atlantis engine is built from.
 *
 * The asset store, the file system and the HTTP endpoint are oracles: a
 * `Sources` value lists what each of them can open. Opening is modelled
 * as success or failure only; the stream records where its bytes come
 * from. The resolver also reports, in order, every collaborator call it
 * made (its probes), so that "consults only X" can be stated.
 */
module ConfigResolver {
  import opened Wrappers

  /** What the collaborators can open at the time of the call. */
  datatype Sources = Sources(assets: set<string>, files: set<string>, urls: set<string>)

  /** A byte stream, identified by where its bytes come from. A literal
      stream holds the descriptor text; its byte encoding is the platform's. */
  datatype Stream =
    | AssetStream(path: string)
    | FileStream(path: string)
    | HttpStream(url: string)
    | LiteralStream(text: string)

  /** One call into a collaborator. */
  datatype Probe = AssetProbe(path: string) | FileProbe(path: string) | HttpProbe(url: string)

  /** The collaborator calls made, in order, and the stream obtained (None: null). */
  datatype Resolution = Resolution(probes: seq<Probe>, stream: Option<Stream>)

  const AssetScheme: string := "asset://"
  const FileScheme: string := "file://"
  const HttpScheme: string := "http://"
  const HttpsScheme: string := "https://"

  predicate StartsWith(s: string, prefix: string) {
    |prefix| <= |s| && s[..|prefix|] == prefix
  }

  /** True when the collaborator addressed by `p` opens without error. */
  predicate Opens(src: Sources, p: Probe) {
    match p
    case AssetProbe(path) => path in src.assets
    case FileProbe(path) => path in src.files
    case HttpProbe(url) => url in src.urls
  }

  /** The stream a successful probe yields. */
  function StreamOf(p: Probe): (st: Stream)
    ensures !st.LiteralStream?
  {
    match p
    case AssetProbe(path) => AssetStream(path)
    case FileProbe(path) => FileStream(path)
    case HttpProbe(url) => HttpStream(url)
  }

  /** The characters Java's `.` refuses to match without DOTALL. */
  predicate IsLineTerminator(c: char) {
    c == '\n' || c == '\r' || c == '\U{0085}' || c == '\U{2028}' || c == '\U{2029}'
  }

  /** A scan for line terminators, as the regex engine runs `.*`. */
  function NoLineTerminator(s: string): bool {
    if s == [] then true else !IsLineTerminator(s[0]) && NoLineTerminator(s[1..])
  }

  /** `description.matches("^(http|https)://.*$")`: the whole string must
      match, so nothing after the scheme may be a line terminator. */
  predicate IsOnlineResource(d: string) {
    (StartsWith(d, HttpScheme) && NoLineTerminator(d[|HttpScheme|..])) ||
    (StartsWith(d, HttpsScheme) && NoLineTerminator(d[|HttpsScheme|..]))
  }

  /** The language of the regular expression, stated directly. */
  ghost predicate LineFree(s: string) {
    forall i :: 0 <= i < |s| ==> !IsLineTerminator(s[i])
  }

  ghost predicate InOnlinePattern(d: string) {
    exists rest :: LineFree(rest) && (d == HttpScheme + rest || d == HttpsScheme + rest)
  }

  /** A descriptor with one of the three recognised schemes. */
  predicate HasScheme(d: string) {
    StartsWith(d, AssetScheme) || StartsWith(d, FileScheme) || IsOnlineResource(d)
  }

  /** One explicit attempt: a failure gives null and is not retried. */
  function Attempt(src: Sources, p: Probe): (r: Resolution)
    ensures r.probes == [p]
    ensures r.stream.Some? <==> Opens(src, p)
    ensures r.stream.Some? ==> r.stream.value == StreamOf(p)
  {
    Resolution([p], if Opens(src, p) then Some(StreamOf(p)) else None)
  }

  /** getConfigurationInputStream. */
  function Resolve(src: Sources, description: Option<string>): (r: Resolution)
    // null is the only input that consults nobody
    ensures description.None? <==> r.probes == []
    ensures description.None? ==> r.stream.None?
    // every probe but the last one failed: the first success wins
    ensures forall i :: 0 <= i < |r.probes| - 1 ==> !Opens(src, r.probes[i])
    // a successful last probe supplies the stream
    ensures r.probes != [] && Opens(src, r.probes[|r.probes| - 1]) ==>
              r.stream == Some(StreamOf(r.probes[|r.probes| - 1]))
    // absent only for null or a failed explicit scheme
    ensures r.stream.None? ==>
              description.None? || (HasScheme(description.value) && |r.probes| == 1)
    // literal content only when every guess failed
    ensures r.stream.Some? && r.stream.value.LiteralStream? ==>
              description == Some(r.stream.value.text) && !HasScheme(r.stream.value.text) &&
              forall p :: p in r.probes ==> !Opens(src, p)
  {
    match description
    case None => Resolution([], None)
    case Some(d) =>
      if StartsWith(d, AssetScheme) then Attempt(src, AssetProbe(d[|AssetScheme|..]))
      else if StartsWith(d, FileScheme) then Attempt(src, FileProbe(d[|FileScheme|..]))
      else if IsOnlineResource(d) then Attempt(src, HttpProbe(d))
      else if d in src.assets then Resolution([AssetProbe(d)], Some(AssetStream(d)))
      else if d in src.files then Resolution([AssetProbe(d), FileProbe(d)], Some(FileStream(d)))
      else Resolution([AssetProbe(d), FileProbe(d)], Some(LiteralStream(d)))
  }

  /** The scan agrees with the character-by-character reading of `.*`. */
  lemma {:induction false} NoLineTerminatorIsLineFree(s: string)
    ensures NoLineTerminator(s) <==> LineFree(s)
  {
    if s != [] {
      NoLineTerminatorIsLineFree(s[1..]);
      assert forall i :: 1 <= i < |s| ==> s[i] == s[1..][i - 1];
    }
  }

  /** The online test accepts exactly the strings of `^(http|https)://.*$`. */
  lemma OnlineResourceIsPattern(d: string)
    ensures IsOnlineResource(d) <==> InOnlinePattern(d)
  {
    if StartsWith(d, HttpScheme) {
      NoLineTerminatorIsLineFree(d[|HttpScheme|..]);
      assert d == HttpScheme + d[|HttpScheme|..];
    }
    if StartsWith(d, HttpsScheme) {
      NoLineTerminatorIsLineFree(d[|HttpsScheme|..]);
      assert d == HttpsScheme + d[|HttpsScheme|..];
    }
    if InOnlinePattern(d) {
      var rest :| LineFree(rest) && (d == HttpScheme + rest || d == HttpsScheme + rest);
      NoLineTerminatorIsLineFree(rest);
      if d == HttpScheme + rest {
        assert d[..|HttpScheme|] == HttpScheme && d[|HttpScheme|..] == rest;
      } else {
        assert d[..|HttpsScheme|] == HttpsScheme && d[|HttpsScheme|..] == rest;
      }
    }
  }

  /** An `asset://` descriptor consults the asset store alone, with the
      scheme's eight characters removed, and a failure gives null. */
  lemma AssetSchemeConsultsOnlyAssets(src: Sources, d: string)
    requires StartsWith(d, AssetScheme)
    ensures Resolve(src, Some(d)).probes == [AssetProbe(d[8..])]
    ensures Resolve(src, Some(d)).stream ==
              if d[8..] in src.assets then Some(AssetStream(d[8..])) else None
  {
  }

  /** A `file://` descriptor consults the file system alone, with the
      scheme's seven characters removed, and a failure gives null. */
  lemma FileSchemeConsultsOnlyFiles(src: Sources, d: string)
    requires StartsWith(d, FileScheme)
    ensures Resolve(src, Some(d)).probes == [FileProbe(d[7..])]
    ensures Resolve(src, Some(d)).stream ==
              if d[7..] in src.files then Some(FileStream(d[7..])) else None
  {
    assert d[0] != AssetScheme[0];
  }

  /** An online descriptor consults the HTTP endpoint alone, with the
      whole descriptor as URL, and a failure gives null. */
  lemma OnlineSchemeConsultsOnlyHttp(src: Sources, d: string)
    requires IsOnlineResource(d)
    ensures Resolve(src, Some(d)).probes == [HttpProbe(d)]
    ensures Resolve(src, Some(d)).stream == if d in src.urls then Some(HttpStream(d)) else None
  {
  }

  /** Without a scheme the descriptor is tried as an asset, then as a file,
      then taken as literal content; this path never gives null. */
  lemma GuessingOrder(src: Sources, d: string)
    requires !HasScheme(d)
    ensures Resolve(src, Some(d)).stream.Some?
    ensures Resolve(src, Some(d)).probes ==
              if d in src.assets then [AssetProbe(d)] else [AssetProbe(d), FileProbe(d)]
    ensures Resolve(src, Some(d)).stream.value ==
              if d in src.assets then AssetStream(d)
              else if d in src.files then FileStream(d)
              else LiteralStream(d)
  {
  }

  /** The outcome depends on the collaborators only through the calls the
      resolver made: two worlds that agree on those calls resolve alike. */
  lemma ResolveConsultsOnlyItsProbes(src1: Sources, src2: Sources, description: Option<string>)
    requires forall p :: p in Resolve(src1, description).probes ==> (Opens(src1, p) <==> Opens(src2, p))
    ensures Resolve(src2, description) == Resolve(src1, description)
  {
    match description
    case None =>
    case Some(d) =>
      if !HasScheme(d) {
        assert Opens(src1, AssetProbe(d)) <==> Opens(src2, AssetProbe(d));
        if d !in src1.assets {
          assert Opens(src1, FileProbe(d)) <==> Opens(src2, FileProbe(d));
        }
      }
  }
}
