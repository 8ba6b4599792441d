/** Decentralised identifiers of the did:tdw and did:webvh methods (swiyu-core/src/did/mod.rs). */
module Did {
  import opened Basics
  import opened Text
  import opened Scid

  datatype Method = Tdw | WebVh

  datatype DidError = MissingPrefix | MissingDomain | InvalidDomain | InvalidPath

  predicate IsValidDomain(domain: string) {
    domain != "" && forall seg | seg in Split(domain, '.') :: seg != ""
  }

  predicate IsValidPath(path: string) {
    path != "" && forall seg | seg in Split(path, ':') :: seg != ""
  }

  datatype Did = Did(kind: Method, scid: Option<string>, domain: string, path: Option<string>) {

    predicate Valid() {
      IsValidDomain(domain) && (path.Some? ==> IsValidPath(path.value))
    }

    /** Everything after the method prefix; an absent SCID shows as the placeholder. */
    function Suffix(): string {
      (if scid.Some? then scid.value else PLACEHOLDER) + ":"
      + (if path.Some? then domain + ":" + path.value else domain)
    }

    function ToString(): string {
      Prefix(kind) + Suffix()
    }
  }

  function Prefix(kind: Method): string {
    match kind
    case Tdw => "did:tdw:"
    case WebVh => "did:webvh:"
  }

  /** `validate_and_build`, behind `try_new_tdw` and `try_new_webvh`. */
  function TryNew(kind: Method, scid: Option<string>, domain: string, path: Option<string>): (r: Result<Did, DidError>)
    ensures r.Ok? <==> Did(kind, scid, domain, path).Valid()
  {
    if !IsValidDomain(domain) then Err(InvalidDomain)
    else if path.Some? && !IsValidPath(path.value) then Err(InvalidPath)
    else Ok(Did(kind, scid, domain, path))
  }

  function FromStr(s: string): Result<Did, DidError> {
    match StripPrefix(s, Prefix(Tdw))
    case Some(rest) => ParseSuffix(Tdw, rest)
    case None =>
      match StripPrefix(s, Prefix(WebVh))
      case Some(rest) => ParseSuffix(WebVh, rest)
      case None => Err(MissingPrefix)
  }

  function ParseSuffix(kind: Method, rest: string): Result<Did, DidError> {
    var parts := SplitN3(rest, ':');
    var scid := if parts[0] == "" then None else Some(parts[0]);
    if |parts| < 2 || parts[1] == "" then Err(MissingDomain)
    else if !IsValidDomain(parts[1]) then Err(InvalidDomain)
    else if |parts| == 3 && !IsValidPath(parts[2]) then Err(InvalidPath)
    else Ok(Did(kind, scid, parts[1], if |parts| == 3 then Some(parts[2]) else None))
  }

  /** Every parsed DID is valid, and printing it restores the text unless the SCID was left empty. */
  lemma PrintOfParse(s: string, did: Did)
    requires FromStr(s) == Ok(did)
    ensures did.Valid()
    ensures did.ToString() == s <==> did.scid.Some?
  {
    var stripped := StripPrefix(s, Prefix(Tdw));
    var kind := if stripped.Some? then Tdw else WebVh;
    var rest := StripPrefix(s, Prefix(kind)).value;
    SuffixOfParse(kind, rest, did);
    if did.ToString() == s {
      PrefixCancels(Prefix(kind), did.Suffix(), rest);
    }
  }

  lemma SuffixOfParse(kind: Method, rest: string, did: Did)
    requires ParseSuffix(kind, rest) == Ok(did)
    ensures did.Valid() && did.kind == kind
    ensures did.Suffix() == rest <==> did.scid.Some?
  {
    if did.scid.None? {
      assert rest[0] == ':' && did.Suffix()[0] == PLACEHOLDER[0] == '{';
    }
  }

  /** The guard a caller can check: a printed DID parses back to itself exactly then. */
  predicate Reparsable(did: Did) {
    did.scid.Some? && did.scid.value != "" && ':' !in did.scid.value && ':' !in did.domain
  }

  lemma ParseOfPrint(did: Did)
    requires did.Valid()
    ensures FromStr(did.ToString()) == Ok(did) <==> Reparsable(did)
  {
    var rest := did.Suffix();
    assert StripPrefix(did.ToString(), Prefix(did.kind)) == Some(rest) by {
      StripPrefixOf(Prefix(did.kind), rest);
    }
    assert did.kind == WebVh ==> StripPrefix(did.ToString(), Prefix(Tdw)) == None by {
      assert did.kind == WebVh ==> did.ToString()[4] == 'w';
      assert Prefix(Tdw)[4] == 't';
    }
    assert FromStr(did.ToString()) == ParseSuffix(did.kind, rest);
    if Reparsable(did) {
      SplitN3Of(did.scid.value, ':', did.domain);
    }
  }

  /** The text of a DID, an absent SCID showing as nothing. */
  function TextOf(did: Did): string {
    (if did.kind == Tdw then "did:tdw:" else "did:webvh:") + PartsOf(did)
  }

  function PartsOf(did: Did): string {
    (if did.scid.Some? then did.scid.value else "")
    + ":" + (if did.path.Some? then did.domain + ":" + did.path.value else did.domain)
  }

  predicate ColonFree(did: Did) {
    ':' !in did.domain && (did.scid.Some? ==> did.scid.value != "" && ':' !in did.scid.value)
  }

  lemma PartsAreExact(kind: Method, rest: string, did: Did)
    ensures ParseSuffix(kind, rest) == Ok(did) <==>
            did.kind == kind && did.Valid() && ColonFree(did) && rest == PartsOf(did)
  {
    hide IsValidDomain, IsValidPath, SplitN3;
    if did.kind == kind && did.Valid() && ColonFree(did) && rest == PartsOf(did) {
      NonEmptyDomain(did);
      SplitN3Of(if did.scid.Some? then did.scid.value else "", ':', did.domain);
    }
  }

  lemma NonEmptyDomain(did: Did)
    requires did.Valid()
    ensures did.domain != ""
  {
  }

  /** Exactly the texts of valid DIDs are read as DIDs: neither SCID nor domain holds a colon, no SCID is empty. */
  lemma ParseIsExact(s: string, did: Did)
    ensures FromStr(s) == Ok(did) <==> did.Valid() && ColonFree(did) && s == TextOf(did)
  {
    hide ParseSuffix, IsValidDomain, IsValidPath, PartsOf;
    PrefixesDiffer(s);
    forall kind, rest | s == Prefix(kind) + rest
      ensures StripPrefix(s, Prefix(kind)) == Some(rest)
      ensures ParseSuffix(kind, rest) == Ok(did) <==>
              did.kind == kind && did.Valid() && ColonFree(did) && rest == PartsOf(did)
    {
      StripPrefixOf(Prefix(kind), rest);
      PartsAreExact(kind, rest, did);
    }
  }

  lemma PrefixesDiffer(s: string)
    ensures !(Prefix(Tdw) <= s && Prefix(WebVh) <= s)
  {
    assert Prefix(Tdw)[4] == 't' && Prefix(WebVh)[4] == 'w';
  }

  /** Domains are dot-separated and paths colon-separated, without empty pieces. */
  lemma ValidityIsExact(domain: string, path: string)
    ensures IsValidDomain(domain) <==> WellSeparated(domain, '.')
    ensures IsValidPath(path) <==> WellSeparated(path, ':')
  {
    assert IsValidDomain(domain) <==> domain != "" && AllNonEmpty(Split(domain, '.'));
    assert IsValidPath(path) <==> path != "" && AllNonEmpty(Split(path, ':'));
    hide *;
    PiecesAreNonEmpty(domain, '.');
    PiecesAreNonEmpty(path, ':');
    EmptyIsNotSeparated();
  }

  lemma EmptyIsNotSeparated()
    ensures forall c :: !WellSeparated("", c)
  {
  }

  /** What is wrong with a text that is not a DID: the prefix, then the domain, then the path. */
  lemma ParseErrorIsExact(s: string, kind: Method, rest: string)
    ensures FromStr(s) == Err(MissingPrefix) <==> !("did:tdw:" <= s) && !("did:webvh:" <= s)
    ensures s == Prefix(kind) + rest ==> FromStr(s) == ParseSuffix(kind, rest)
  {
    hide IsValidDomain, IsValidPath, SplitN3;
    PrefixesDiffer(s);
    if s == Prefix(kind) + rest {
      StripPrefixOf(Prefix(kind), rest);
    }
  }

  lemma SuffixErrorIsExact(kind: Method, scid: string, domain: string, path: string)
    requires ':' !in scid && ':' !in domain
    ensures ParseSuffix(kind, scid) == Err(MissingDomain)
    ensures !IsValidDomain(domain) ==>
              var error := if domain == "" then MissingDomain else InvalidDomain;
              && ParseSuffix(kind, scid + ":" + domain) == Err(error)
              && ParseSuffix(kind, scid + ":" + (domain + ":" + path)) == Err(error)
    ensures IsValidDomain(domain) && !IsValidPath(path) ==>
              ParseSuffix(kind, scid + ":" + (domain + ":" + path)) == Err(InvalidPath)
  {
    hide IsValidDomain, IsValidPath, SplitN3;
    EmptyIsInvalid();
    SplitN3Of(scid, ':', domain);
    SplitN3One(scid);
  }

  lemma EmptyIsInvalid()
    ensures !IsValidDomain("")
  {
  }

  lemma SplitN3One(s: string)
    requires ':' !in s
    ensures SplitN3(s, ':') == [s]
  {
  }
}
