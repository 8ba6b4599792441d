/**
 The mappings between a DID, the URL of its log and the identifier of its registry entry
 (swiyu-core/src/did/mod.rs, swiyu-didtool/src/cmd/did/create.rs and rotate.rs,
 swiyu-registries/src/identifier/allocate.rs).
 */
module DidUrl {
  import opened Basics
  import opened Text
  import opened Did

  const SCHEME := "https://"
  const PORT_ESCAPE := "%3A"
  const INDEX_FILE := "did.jsonl"
  const WELL_KNOWN := ".well-known"

  function DecodeHost(domain: string): string {
    ReplaceAll(domain, PORT_ESCAPE, ":")
  }

  function EncodeHost(host: string): string {
    match SplitOnce(host, ':')
    case Some((name, port)) => name + PORT_ESCAPE + port
    case None => host
  }

  /** The directory of the log below the host. */
  function Location(did: Did): string {
    match did.path
    case Some(p) => ReplaceAll(p, ":", "/")
    case None => WELL_KNOWN
  }

  function LogUrl(did: Did): string {
    SCHEME + (DecodeHost(did.domain) + "/" + (Location(did) + "/" + INDEX_FILE))
  }

  datatype UrlError = NotHttps | MissingHost

  /** Host and path of an https URL, the path without its leading slash. */
  function HostAndPath(url: string): (r: Result<(string, string), UrlError>)
    ensures r.Ok? ==> r.value.0 != "" && '/' !in r.value.0
    ensures r.Ok? ==> url == SCHEME + (r.value.0 + "/" + r.value.1)
                      || (url == SCHEME + r.value.0 && r.value.1 == "")
  {
    match StripPrefix(url, SCHEME)
    case None => Err(NotHttps)
    case Some(rest) =>
      var (host, path) := match SplitOnce(rest, '/')
        case Some(pair) => pair
        case None => (rest, "");
      if host == "" then Err(MissingHost) else Ok((host, path))
  }

  function Segments(path: string): seq<string> {
    NonEmpty(Split(path, '/'))
  }

  /** Drops the file name from the path segments of a log URL. */
  function WithoutIndex(segments: seq<string>): seq<string> {
    if segments != [] && segments[|segments| - 1] == INDEX_FILE then segments[..|segments| - 1] else segments
  }

  /** `.well-known` is the implicit root. */
  function DidPath(segments: seq<string>): Option<string> {
    if segments == [] || segments == [WELL_KNOWN] then None else Some(Join(segments, ":"))
  }

  function UrlToDidComponents(url: string): Result<(string, Option<string>), UrlError> {
    var (host, path) :- HostAndPath(url);
    Ok((EncodeHost(host), DidPath(WithoutIndex(Segments(path)))))
  }

  /** `url_to_did_components`, popping the file name off the segments. */
  method ParseUrl(url: string) returns (r: Result<(string, Option<string>), UrlError>)
    ensures r == UrlToDidComponents(url)
  {
    hide HostAndPath, EncodeHost, Segments, Join;
    var parts :- HostAndPath(url);
    var segments := Segments(parts.1);
    if segments != [] && segments[|segments| - 1] == INDEX_FILE {
      segments := segments[..|segments| - 1];
    }
    var didPath: Option<string> := None;
    if !(segments == [] || segments == [WELL_KNOWN]) {
      didPath := Some(Join(segments, ":"));
    }
    return Ok((EncodeHost(parts.0), didPath));
  }

  // --- path segments ---

  lemma SegmentsAppend(a: string, b: string)
    ensures Segments(a + "/" + b) == Segments(a) + Segments(b)
  {
    SplitAppend(a, '/', b);
    NonEmptyAppend(Split(a, '/'), Split(b, '/'));
  }

  lemma SegmentsOne(s: string)
    requires '/' !in s
    ensures Segments(s) == if s == "" then [] else [s]
  {
    assert Split(s, '/') == [s] && [s][1..] == [];
    assert NonEmpty([s][1..]) == [];
  }

  lemma SegmentsPieces(path: string)
    ensures forall seg | seg in Segments(path) :: seg != "" && '/' !in seg
  {
    SplitPieces(path, '/');
    NonEmptyPieces(Split(path, '/'));
  }

  // --- from a DID to its log URL and back ---

  /** At most one port escape, and no bare colon ahead of it. */
  predicate HostRestorable(domain: string) {
    match Find(domain, PORT_ESCAPE)
    case None => ':' !in domain
    case Some(i) => ':' !in domain[..i] && !Contains(domain[i + 3..], PORT_ESCAPE)
  }

  predicate UrlRestorable(did: Did) {
    && '/' !in did.domain && HostRestorable(did.domain)
    && (did.path.Some? ==> '/' !in did.path.value && did.path.value != WELL_KNOWN)
  }

  /** The components of a DID are recovered from its log URL exactly when `UrlRestorable` holds. */
  lemma ComponentsOfLogUrl(did: Did)
    requires did.Valid()
    ensures UrlToDidComponents(LogUrl(did)) == Ok((did.domain, did.path)) <==> UrlRestorable(did)
  {
    ComponentsAreSlashFree(LogUrl(did));
    if '/' !in did.domain {
      HostOfLogUrl(did);
      HostRoundTrip(did.domain);
      if did.path.None? || '/' !in did.path.value {
        PathOfLogUrl(did);
      }
    }
  }

  lemma ComponentsAreSlashFree(url: string)
    ensures var r := UrlToDidComponents(url);
            r.Ok? ==> '/' !in r.value.0 && (r.value.1.Some? ==> '/' !in r.value.1.value)
  {
    match HostAndPath(url)
    case Err(_) =>
    case Ok((host, path)) =>
      SegmentsPieces(path);
      JoinSlashFree(WithoutIndex(Segments(path)));
  }

  lemma {:induction false} JoinSlashFree(parts: seq<string>)
    requires forall p | p in parts :: '/' !in p
    ensures '/' !in Join(parts, ":")
  {
    if |parts| <= 1 {
    } else {
      JoinSlashFree(parts[1..]);
    }
  }

  lemma HostOfLogUrl(did: Did)
    requires did.Valid() && '/' !in did.domain
    ensures HostAndPath(LogUrl(did)) == Ok((DecodeHost(did.domain), Location(did) + "/" + INDEX_FILE))
  {
    var host, tail := DecodeHost(did.domain), Location(did) + "/" + INDEX_FILE;
    ReplaceKeepsFree(did.domain, PORT_ESCAPE, ":", '/');
    StripPrefixOf(SCHEME, host + "/" + tail);
    SplitOnceAt(host, '/', tail);
  }

  lemma {:induction false} ReplaceKeepsFree(s: string, pat: string, rep: string, c: char)
    requires pat != "" && c !in s && c !in rep
    ensures c !in ReplaceAll(s, pat, rep)
    decreases |s|
  {
    match Find(s, pat)
    case None =>
    case Some(i) =>
      ReplaceKeepsFree(s[i + |pat|..], pat, rep, c);
      var tail := ReplaceAll(s[i + |pat|..], pat, rep);
      assert ReplaceAll(s, pat, rep) == s[..i] + rep + tail;
  }

  lemma {:induction false} DecodedHostLength(s: string)
    ensures |DecodeHost(s)| <= |s|
    ensures |DecodeHost(s)| == |s| <==> !Contains(s, PORT_ESCAPE)
    decreases |s|
  {
    match Find(s, PORT_ESCAPE)
    case None =>
    case Some(i) => DecodedHostLength(s[i + 3..]);
  }

  lemma HostRoundTrip(domain: string)
    ensures EncodeHost(DecodeHost(domain)) == domain <==> HostRestorable(domain)
  {
    match Find(domain, PORT_ESCAPE)
    case None =>
      assert DecodeHost(domain) == domain;
    case Some(i) =>
      var name, tail := domain[..i], domain[i + 3..];
      assert domain == name + PORT_ESCAPE + tail;
      assert DecodeHost(domain) == name + ":" + DecodeHost(tail);
      DecodedHostLength(tail);
      EncodedHost(name, DecodeHost(tail), tail);
  }

  lemma EncodedHost(name: string, decoded: string, tail: string)
    requires |decoded| == |tail| ==> decoded == tail
    ensures EncodeHost(name + ":" + decoded) == name + PORT_ESCAPE + tail <==> ':' !in name && |decoded| == |tail|
  {
    if ':' in name {
      var (before, after) := SplitOnce(name, ':').value;
      var port := after + ":" + decoded;
      SplitOnceAt(before, ':', port);
      assert name + ":" + decoded == before + ":" + port;
      assert (before + PORT_ESCAPE + port)[|before|] == '%';
      assert (name + PORT_ESCAPE + tail)[|before|] == name[|before|] == ':';
    } else {
      SplitOnceAt(name, ':', decoded);
    }
  }

  lemma FindChar(s: string, c: char)
    ensures Find(s, [c]) == IndexOf(s, c)
  {
    match IndexOf(s, c)
    case None =>
    case Some(i) =>
      assert s[i..i + 1] == [c] && OccursAt(s, [c], i);
      forall f: nat | f < i ensures !OccursAt(s, [c], f) {
        assert s[f] == s[..i][f] && s[f..f + 1][0] == s[f];
      }
  }

  lemma {:induction false} SplitReplaced(p: string)
    requires '/' !in p
    ensures Split(ReplaceAll(p, ":", "/"), '/') == Split(p, ':')
    decreases |p|
  {
    FindChar(p, ':');
    match IndexOf(p, ':')
    case None =>
    case Some(i) =>
      var tail := ReplaceAll(p[i + 1..], ":", "/");
      SplitReplaced(p[i + 1..]);
      SplitFirst(p[..i], '/', tail);
      assert ReplaceAll(p, ":", "/") == p[..i] + "/" + tail;
  }

  lemma SinglePiece(s: string, c: char, piece: string)
    requires c !in piece
    ensures Split(s, c) == [piece] <==> s == piece
  {
    JoinSplit(s, c);
    assert s == piece ==> Split(s, c) == [s];
  }

  lemma PathOfLogUrl(did: Did)
    requires did.Valid() && (did.path.Some? ==> '/' !in did.path.value)
    ensures DidPath(WithoutIndex(Segments(Location(did) + "/" + INDEX_FILE))) == did.path
            <==> !(did.path == Some(WELL_KNOWN))
  {
    hide Split, NonEmpty, ReplaceAll, Join;
    SegmentsAppend(Location(did), INDEX_FILE);
    SegmentsOne(INDEX_FILE);
    var segments := Segments(Location(did));
    assert WithoutIndex(segments + [INDEX_FILE]) == segments;
    match did.path
    case None =>
      SegmentsOne(WELL_KNOWN);
    case Some(p) =>
      SplitReplaced(p);
      NonEmptyKeeps(Split(p, ':'));
      JoinSplit(p, ':');
      SinglePiece(p, ':', WELL_KNOWN);
  }

  // --- the registry entry addressed by create and by rotate ---

  /** The URL without its file name, if it ends in one. */
  function WithoutIndexFile(url: string): string {
    match StripSuffix(url, "/" + INDEX_FILE)
    case Some(base) => base
    case None => url
  }

  /** `extract_identifier`: the trailing path segment of the URL the registry allocated. */
  function ExtractIdentifier(url: string): Option<string> {
    var last := LastPiece(TrimEndMatches(WithoutIndexFile(url), '/'), '/');
    if last == "" then None else Some(last)
  }

  /** `extract_registry_identifier`: the trailing path segment of the DID. */
  function ExtractRegistryIdentifier(did: Did): Option<string> {
    match did.path
    case None => None
    case Some(p) => if LastPiece(p, ':') == "" then None else Some(LastPiece(p, ':'))
  }

  function Last(parts: seq<string>): string
    requires parts != []
  {
    parts[|parts| - 1]
  }

  /** What a caller can check of a URL before using it for both commands. */
  predicate SameEntry(url: string)
    requires HostAndPath(url).Ok?
  {
    var segments := Segments(HostAndPath(url).value.1);
    var kept := WithoutIndex(segments);
    && kept != [] && kept != [WELL_KNOWN]
    && (if kept != segments && StripSuffix(url, "/" + INDEX_FILE).None?
        then Last(kept) == INDEX_FILE || StripSuffix(Last(kept), ":" + INDEX_FILE).Some?
        else ':' !in Last(kept))
  }

  /** Create and rotate address the same registry entry exactly for the URLs of `SameEntry`. */
  lemma CreateAndRotateAgree(url: string, kind: Method, scid: Option<string>, did: Did)
    requires UrlToDidComponents(url).Ok?
    requires var (domain, path) := UrlToDidComponents(url).value; TryNew(kind, scid, domain, path) == Ok(did)
    ensures ExtractIdentifier(url) == ExtractRegistryIdentifier(did) <==> SameEntry(url)
  {
    var (host, path) := HostAndPath(url).value;
    var kept := WithoutIndex(Segments(path));
    SomethingExtracted(url);
    if kept != [] && kept != [WELL_KNOWN] {
      RegistryIdentifierOf(kept);
      LastPieceIsSuffix(Last(kept), ':');
      LastPieceOfIndex(Last(kept));
      ExtractedSegment(url);
      SegmentsPieces(path);
      JoinLastPieceNonEmpty(did.path.value);
    }
  }

  lemma JoinLastPieceNonEmpty(p: string)
    requires IsValidPath(p)
    ensures LastPiece(p, ':') != ""
  {
    assert LastPiece(p, ':') in Split(p, ':');
  }

  lemma UrlSegments(url: string)
    requires HostAndPath(url).Ok?
    ensures var (host, path) := HostAndPath(url).value;
            Segments(url) == ["https:", host] + Segments(path)
  {
    var (host, path) := HostAndPath(url).value;
    hide Segments, HostAndPath;
    SchemeSegments("https:", host, path);
    AfterScheme(host);
    AfterScheme(host + "/" + path);
  }

  lemma AfterScheme(rest: string)
    ensures "https:" + "/" + ("" + "/" + rest) == "https://" + rest
  {
    assert "https:" + "/" + ("" + "/") == "https://";
    assert "https:" + "/" + ("" + "/" + rest) == ("https:" + "/" + ("" + "/")) + rest;
  }

  lemma SchemeSegments(scheme: string, host: string, path: string)
    requires scheme != "" && '/' !in scheme && host != "" && '/' !in host
    ensures Segments(scheme + "/" + ("" + "/" + host)) == [scheme, host]
    ensures Segments(scheme + "/" + ("" + "/" + (host + "/" + path))) == [scheme, host] + Segments(path)
    ensures Segments("") == []
  {
    hide Segments;
    SegmentsOne(scheme);
    SegmentsOne(host);
    SegmentsOne("");
    SegmentsAppend(scheme, "" + "/" + host);
    SegmentsAppend("", host);
    SegmentsAppend(scheme, "" + "/" + (host + "/" + path));
    SegmentsAppend("", host + "/" + path);
    SegmentsAppend(host, path);
  }

  lemma {:induction false} LastSegmentOf(x: string)
    requires Segments(x) != []
    ensures LastPiece(TrimEndMatches(x, '/'), '/') == Last(Segments(x))
    decreases |x|
  {
    if x != "" && x[|x| - 1] == '/' {
      var y := x[..|x| - 1];
      assert x == y + "/" + "";
      SegmentsAppend(y, "");
      SegmentsOne("");
      LastSegmentOf(y);
    } else {
      var parts := Split(x, '/');
      var front, last := parts[..|parts| - 1], LastPiece(x, '/');
      assert parts == front + [last];
      NonEmptyAppend(front, [last]);
      LastPieceIsSuffix(x, '/');
    }
  }

  /** Some segment, even if only the host or the scheme, is always extracted from a URL. */
  lemma SomethingExtracted(url: string)
    requires HostAndPath(url).Ok?
    ensures Segments(WithoutIndexFile(url)) != []
    ensures ExtractIdentifier(url) == Some(Last(Segments(WithoutIndexFile(url))))
    ensures StripSuffix(url, "/" + INDEX_FILE).Some? ==>
              Segments(url) == Segments(WithoutIndexFile(url)) + [INDEX_FILE]
  {
    hide Segments, LastPiece, TrimEndMatches, HostAndPath;
    var base := WithoutIndexFile(url);
    UrlSegments(url);
    if StripSuffix(url, "/" + INDEX_FILE).Some? {
      IndexFileIsASegment(base);
    }
    LastSegmentOf(base);
    SegmentsPieces(base);
    assert Last(Segments(base)) in Segments(base);
  }

  lemma IndexFileIsASegment(base: string)
    ensures Segments(base + ("/" + INDEX_FILE)) == Segments(base) + [INDEX_FILE]
  {
    hide Segments;
    SegmentsAppend(base, INDEX_FILE);
    SegmentsOne(INDEX_FILE);
    assert base + ("/" + INDEX_FILE) == base + "/" + INDEX_FILE;
  }

  lemma ExtractedSegment(url: string)
    requires HostAndPath(url).Ok?
    requires WithoutIndex(Segments(HostAndPath(url).value.1)) != []
    ensures var segments := Segments(HostAndPath(url).value.1);
            var kept := WithoutIndex(segments);
            ExtractIdentifier(url) ==
              Some(if kept != segments && StripSuffix(url, "/" + INDEX_FILE).None? then INDEX_FILE else Last(kept))
  {
    hide Segments, ExtractIdentifier, HostAndPath;
    var segments := Segments(HostAndPath(url).value.1);
    UrlSegments(url);
    SomethingExtracted(url);
    var all := Segments(url);
    assert Last(all) == Last(segments);
    if StripSuffix(url, "/" + INDEX_FILE).Some? {
      assert Segments(WithoutIndexFile(url)) == all[..|all| - 1];
    }
  }

  lemma {:induction false} RegistryIdentifierOf(kept: seq<string>)
    requires kept != []
    ensures LastPiece(Join(kept, ":"), ':') == LastPiece(Last(kept), ':')
  {
    if |kept| <= 1 {
    } else {
      LastPieceAfter(kept[0], ':', Join(kept[1..], ":"));
      RegistryIdentifierOf(kept[1..]);
    }
  }

  lemma LastPieceOfIndex(s: string)
    ensures LastPiece(s, ':') == INDEX_FILE <==> s == INDEX_FILE || StripSuffix(s, ":" + INDEX_FILE).Some?
  {
    hide LastPiece;
    LastPieceIsSuffix(s, ':');
    LastPieceIsSuffix(INDEX_FILE, ':');
    if StripSuffix(s, ":" + INDEX_FILE).Some? {
      var front := StripSuffix(s, ":" + INDEX_FILE).value;
      assert s == front + [':'] + INDEX_FILE;
      LastPieceAfter(front, ':', INDEX_FILE);
    }
  }
}
