/**
 Inputs, for the libraries of `Instance`, at which the commands do what their users would not expect:
 a DID that is stored but not found again, a rotation that goes through after a deactivation, and a
 DID with two genesis entries.
 */
module Examples {
  import opened Basics
  import opened Text
  import opened Json
  import opened Crypto
  import opened Scid
  import opened PublicKeys
  import opened LogEntry
  import opened EntryEdits
  import opened KeyStore
  import opened LogVerifier
  import opened LogSecurity
  import opened Producer
  import opened GenesisTexts
  import opened Genesis
  import opened GenesisDocument
  import opened LogGrowth
  import opened Lifecycle
  import opened Rotation
  import opened Instance
  import DidDoc
  import Did
  import DidUrl
  import Proof
  import VersionTime

  // --- fresh SCIDs: the SCID starts with a letter that no other text holds ---

  predicate NoQ(t: string) {
    'Q' !in t
  }

  lemma DocNamesWithoutQ()
    ensures forall n | n in DidDoc.DOC_NAMES :: NoQ(n)
  {
  }

  lemma KeyNamesWithoutQ()
    ensures forall n | n in DidDoc.VM_NAMES :: NoQ(n)
    ensures forall n | n in JWK_NAMES :: NoQ(n)
  {
  }

  lemma ParameterNamesWithoutQ()
    ensures forall n | n in PARAMETER_NAMES :: NoQ(n)
  {
  }

  lemma ConstantsWithoutQ()
    ensures OnConstants(NoQ)
  {
  }

  lemma FixedTextsWithoutQ()
    ensures OnNames(NoQ) && OnConstants(NoQ)
  {
    hide NoQ;
    DocNamesWithoutQ();
    KeyNamesWithoutQ();
    ParameterNamesWithoutQ();
    ConstantsWithoutQ();
  }

  lemma ScidStartsWithQ(v: Json)
    ensures HashLogEntry(SomeCrypto(), v) != "" && HashLogEntry(SomeCrypto(), v)[0] == 'Q'
  {
    assert MULTIHASH_SHA256 <= MULTIHASH_SHA256 + Zeros(32);
  }

  lemma FreshWithoutQ(v: Json, t: string)
    requires NoQ(t)
    ensures !Contains(t, HashLogEntry(SomeCrypto(), v))
  {
    hide HashLogEntry, Contains, SomeCrypto;
    ScidStartsWithQ(v);
    NotContainedWithoutFirst(t, HashLogEntry(SomeCrypto(), v));
  }

  lemma BodyIsFresh(body: Json)
    requires AllTexts(body, NoQ)
    ensures ScidIsFresh(SomeTool(), body)
  {
    hide HashLogEntry, Contains, SomeCrypto, Texts, NoQ;
    forall t | t in Texts(body) ensures !Contains(t, HashLogEntry(SomeCrypto(), body)) {
      FreshWithoutQ(body, t);
    }
  }

  lemma MultikeyWithoutQ(keys: KeySet)
    ensures NoQ(AuthorizedMultikey(SomeTool(), keys))
  {
    hide BitsText;
    var prefixed := MULTICODEC_ED25519 + SomePublic(keys.authorized);
    assert MULTICODEC_ED25519[0] == 0xed && prefixed[0] == 0xed && MULTIHASH_SHA256[0] == 0x12;
    BitsAreBase58(prefixed);
  }

  lemma DigitsWithoutQ(s: string)
    requires AllDigits(s)
    ensures NoQ(s) && Plain(s)
  {
    assert !IsDigit('Q') && !IsDigit('{');
  }

  lemma TimeWithoutQ(now: int)
    ensures NoQ(NowText(SomeTool(), now)) && Plain(NowText(SomeTool(), now))
  {
    var second := VersionTime.Backdated(now) / VersionTime.NANOS;
    if second >= VersionTime.MIN_SECOND {
      DigitsWithoutQ(Decimal(second - VersionTime.MIN_SECOND));
    }
  }

  lemma KeyWithoutQ(key: Bytes)
    ensures OnKey(SomeTool().crypto, SomeTool().p256Public(key), NoQ)
  {
  }

  lemma DidWithoutQ(rest: string)
    requires NoQ(rest)
    ensures OnDid(DidText(rest), NoQ)
  {
  }

  lemma PlaceholderDocumentWithoutQ(rest: string, keys: KeySet)
    requires NoQ(rest)
    ensures AllTexts(PlaceholderDocument(SomeTool(), rest, keys), NoQ)
  {
    hide SomeTool, NoQ, DidText, DidDoc.DocToJson, OnDid, OnKey, OnNames, OnConstants, AllTexts;
    var tool := SomeTool();
    FixedTextsWithoutQ();
    DidWithoutQ(rest);
    KeyWithoutQ(keys.authentication);
    KeyWithoutQ(keys.assertion);
    DocumentTexts(tool.crypto, DidText(rest), tool.p256Public(keys.authentication), tool.p256Public(keys.assertion),
                  NoQ);
  }

  /** Every preliminary entry whose DID does not hold the letter has a fresh SCID. */
  lemma PreliminaryIsFresh(rest: string, keys: KeySet, now: int)
    requires NoQ(rest)
    ensures ScidIsFresh(SomeTool(), PreliminaryEntry(SomeTool(), Tdw03, DidText(rest), keys, NowText(SomeTool(), now)))
  {
    assert NoQ(PLACEHOLDER);
    hide *;
    var tool, nowText := SomeTool(), NowText(SomeTool(), now);
    FixedTextsWithoutQ();
    MultikeyWithoutQ(keys);
    TimeWithoutQ(now);
    PlaceholderDocumentWithoutQ(rest, keys);
    PreliminaryShape(tool, rest, keys, nowText);
    BodyTexts(PLACEHOLDER, nowText, AuthorizedMultikey(tool, keys), PlaceholderDocument(tool, rest, keys), NoQ);
    BodyIsFresh(PreliminaryEntry(tool, Tdw03, DidText(rest), keys, nowText));
  }

  // --- a DID with the domain a ---

  /** The log URL of the DID with domain `a` and the given path. */
  function UrlAt(path: string): string {
    DidUrl.SCHEME + ("a" + "/" + (path + "/" + DidUrl.INDEX_FILE))
  }

  predicate SimplePath(path: string) {
    && path != "" && path != DidUrl.WELL_KNOWN && NoQ(path)
    && forall c | c in path :: c != ':' && c != '/' && c != '{' && c != '%'
  }

  lemma DomainA()
    ensures Did.IsValidDomain("a") && DidUrl.HostRestorable("a") && DidUrl.DecodeHost("a") == "a"
  {
    assert Split("a", '.') == ["a"];
    NotContainedWithoutFirst("a", DidUrl.PORT_ESCAPE);
    ReplaceInFree("a", DidUrl.PORT_ESCAPE, ":");
  }

  lemma PathIsValid(path: string)
    requires SimplePath(path)
    ensures Did.IsValidPath(path) && ReplaceAll(path, ":", "/") == path
  {
    assert Split(path, ':') == [path];
    NotContainedWithoutFirst(path, ":");
    ReplaceInFree(path, ":", "/");
  }

  lemma UrlParsesTo(path: string)
    requires SimplePath(path)
    ensures DidUrl.UrlToDidComponents(UrlAt(path)) == Ok(("a", Some(path)))
  {
    hide DidUrl.UrlToDidComponents, Did.IsValidDomain, Did.IsValidPath, ReplaceAll, DidUrl.HostRestorable, Find;
    var did := Did.Did(Did.Tdw, Some("s"), "a", Some(path));
    DomainA();
    PathIsValid(path);
    assert DidUrl.LogUrl(did) == UrlAt(path);
    DidUrl.ComponentsOfLogUrl(did);
  }

  lemma UrlIsPlain(path: string)
    requires SimplePath(path)
    ensures !Contains(UrlAt(path), PLACEHOLDER)
  {
    assert Plain(path);
    PlainIsFree(UrlAt(path));
  }

  lemma UrlHasOneColonAtMost(path: string)
    requires SimplePath(path)
    ensures SingleColonHost(UrlAt(path))
  {
    var rest := path + "/" + DidUrl.INDEX_FILE;
    StripPrefixOf(DidUrl.SCHEME, "a" + "/" + rest);
    assert "a" + "/" + rest == "a" + ['/'] + rest;
    SplitOnceAt("a", '/', rest);
  }

  lemma CreateUnfolds(path: string, keys: KeySet, now: int)
    requires SimplePath(path)
    ensures var r := CreateResult(SomeTool(), map[], UrlAt(path), Tdw03, keys, now);
            r.Ok? && r.value.0.path == Some(path)
  {
    hide HashLogEntry, ReplaceStrings, DidUrl.UrlToDidComponents, PreliminaryEntry, Did.IsValidDomain, Did.IsValidPath,
         SomeCrypto, SomeText, SomeTime, SignedProof, LogLine, WithVersionId, WithProof;
    UrlParsesTo(path);
    DomainA();
    PathIsValid(path);
  }

  lemma UrlIsFresh(path: string, keys: KeySet, now: int)
    requires SimplePath(path)
    ensures FreshScid(SomeTool(), UrlAt(path), keys, now)
  {
    hide DidUrl.UrlToDidComponents, ScidIsFresh, PreliminaryEntry, SomeTool, NowText;
    UrlParsesTo(path);
    PreliminaryIsFresh(Remainder("a", Some(path)), keys, now);
  }

  /** Create goes through for every simple path. */
  lemma CreatedAt(path: string, keys: KeySet, now: int)
    requires SimplePath(path) && ClockOk(now)
    ensures var r := CreateResult(SomeTool(), map[], UrlAt(path), Tdw03, keys, now);
      && r.Ok? && r.value.0.path == Some(path)
      && Active(SomeTool(), World(r.value.1, r.value.2), r.value.0)
      && |EntriesOf(SomeTool(), r.value.1)| == 1
  {
    hide *;
    CreateUnfolds(path, keys, now);
    UrlIsPlain(path);
    UrlHasOneColonAtMost(path);
    UrlIsFresh(path, keys, now);
    SomeToolIsLawful();
    CreateIsSound(SomeTool(), map[], UrlAt(path), keys, now);
  }

  lemma DidEnds(did: Did.Did, path: string)
    requires did.path == Some(path) && path != ""
    ensures did.ToString() != "" && did.ToString()[0] == 'd' && did.ToString()[|did.ToString()| - 1] == path[|path| - 1]
  {
  }

  lemma {:induction false} TrimEndCuts(s: string)
    requires s != "" && IsWhitespace(s[|s| - 1])
    ensures |TrimEnd(s)| < |s|
    decreases |s|
  {
    var front := s[..|s| - 1];
    if front != "" && IsWhitespace(front[|front| - 1]) {
      TrimEndCuts(front);
    }
  }

  lemma TrimCuts(s: string)
    requires s != "" && !IsWhitespace(s[0]) && IsWhitespace(s[|s| - 1])
    ensures Trim(s) != s
  {
    TrimEndCuts(s);
  }

  /** Input: the blank at the end of the path is part of the DID, and `rotate` no longer finds the keys. */
  lemma TrailingBlankIsNotFound(keys: KeySet, generated: KeySet, now: int)
    requires ClockOk(now)
    ensures UrlAt("b ") == "https://a/b /did.jsonl"
    ensures var r := CreateResult(SomeTool(), map[], UrlAt("b "), Tdw03, keys, now);
      && r.Ok?
      && RotateResult(SomeTool(), r.value.2, r.value.1, [All], NO_FILES, generated, now)
         == Err(StoreFailed(Mismatch(SomeTool().didHash(r.value.0.ToString()))))
  {
    assert SimplePath("b ") && UrlAt("b ") == "https://a/b /did.jsonl" && PlanOf([All], NO_FILES).Ok?;
    assert IsWhitespace(' ') && !IsWhitespace('d') && "b "[1] == ' ';
    hide *;
    CreatedAt("b ", keys, now);
    var (did, text, dirs) := CreateResult(SomeTool(), map[], UrlAt("b "), Tdw03, keys, now).value;
    DidEnds(did, "b ");
    TrimCuts(did.ToString());
    BlankIsNotFound(SomeTool(), World(text, dirs), did, [All], NO_FILES, generated, now);
  }

  lemma BlankIsNotFound(tool: Tool, w: World, did: Did.Did, roles: seq<Role>, files: KeyFiles, generated: KeySet,
                        now: int)
    requires Active(tool, w, did) && Trim(did.ToString()) != did.ToString() && PlanOf(roles, files).Ok?
    ensures RotateResult(tool, w.dirs, w.text, roles, files, generated, now)
            == Err(StoreFailed(Mismatch(tool.didHash(did.ToString()))))
  {
    hide Active, RotateResult, Did.Did.ToString, Trim, LatestVersion, EntriesOf, RotatedWorld, StagedKeys, PlanOf,
         Stored;
    var current := ActiveKeys(tool, w, did);
    RotateOutcome(tool, w, did, current, roles, files, generated, now);
  }

  // --- names that do not come back ---

  /** Input: an empty SCID is read as none, and printed as the placeholder. */
  lemma EmptyScidIsPrintedAsPlaceholder()
    ensures var did := Did.Did(Did.Tdw, None, "a", None);
            Did.FromStr("did:tdw::a") == Ok(did) && did.ToString() == "did:tdw:{SCID}:a" != "did:tdw::a"
  {
    hide Did.IsValidDomain, SplitN3;
    DomainA();
    assert "did:tdw::a" == Did.Prefix(Did.Tdw) + ":a";
    StripPrefixOf(Did.Prefix(Did.Tdw), ":a");
    assert SplitN3(":a", ':') == ["", "a"] by {
      assert ":a" == "" + [':'] + "a";
      SplitN3Of("", ':', "a");
    }
    assert "did:tdw:{SCID}:a"[8] == '{' && "did:tdw::a"[8] == ':';
  }

  /** Input: a colon in the SCID moves its second half into the domain and the domain into the path. */
  lemma ColonInScidShiftsTheParts()
    ensures var did := Did.Did(Did.Tdw, Some("s:t"), "a", None);
            did.Valid() && Did.FromStr(did.ToString()) == Ok(Did.Did(Did.Tdw, Some("s"), "t", Some("a")))
  {
    hide Did.IsValidDomain, Did.IsValidPath, SplitN3;
    DomainA();
    LettersAreValid();
    var did := Did.Did(Did.Tdw, Some("s:t"), "a", None);
    assert did.ToString() == Did.Prefix(Did.Tdw) + "s:t:a";
    StripPrefixOf(Did.Prefix(Did.Tdw), "s:t:a");
    assert SplitN3("s:t:a", ':') == ["s", "t", "a"] by {
      assert "s:t:a" == "s" + [':'] + ("t" + [':'] + "a");
      SplitN3Of("s", ':', "t");
    }
  }

  lemma LettersAreValid()
    ensures Did.IsValidPath("a") && Did.IsValidPath("b") && Did.IsValidDomain("t")
  {
    assert Split("a", ':') == ["a"] && Split("b", ':') == ["b"] && Split("t", '.') == ["t"];
  }

  /** Input: a path that is the well-known directory is lost on the way through the log URL. */
  lemma WellKnownPathIsLost()
    ensures var did := Did.Did(Did.Tdw, Some("s"), "a", Some(DidUrl.WELL_KNOWN));
      && did.Valid() && DidUrl.LogUrl(did) == "https://a/.well-known/did.jsonl"
      && DidUrl.UrlToDidComponents(DidUrl.LogUrl(did)) == Ok(("a", None))
  {
    hide DidUrl.HostAndPath, DidUrl.Segments, Did.IsValidDomain, ReplaceAll, DidUrl.DecodeHost, DidUrl.LogUrl;
    DomainA();
    WellKnownIsPath();
    var did := Did.Did(Did.Tdw, Some("s"), "a", Some(DidUrl.WELL_KNOWN));
    WellKnownLog(did);
    DidUrl.HostOfLogUrl(did);
    DidUrl.SegmentsAppend(DidUrl.WELL_KNOWN, DidUrl.INDEX_FILE);
    DidUrl.SegmentsOne(DidUrl.WELL_KNOWN);
    DidUrl.SegmentsOne(DidUrl.INDEX_FILE);
    PlainHost();
  }

  lemma WellKnownLog(did: Did.Did)
    requires did.domain == "a" && did.path == Some(DidUrl.WELL_KNOWN)
    ensures DidUrl.LogUrl(did) == "https://a/.well-known/did.jsonl"
    ensures DidUrl.Location(did) == DidUrl.WELL_KNOWN
  {
    hide ReplaceAll, DidUrl.DecodeHost;
    DomainA();
    WellKnownIsPath();
  }

  lemma WellKnownIsPath()
    ensures Did.IsValidPath(DidUrl.WELL_KNOWN) && ReplaceAll(DidUrl.WELL_KNOWN, ":", "/") == DidUrl.WELL_KNOWN
  {
    assert ':' !in DidUrl.WELL_KNOWN;
    hide ReplaceAll, Contains;
    NotContainedWithoutFirst(DidUrl.WELL_KNOWN, ":");
    ReplaceInFree(DidUrl.WELL_KNOWN, ":", "/");
    assert IndexOf(DidUrl.WELL_KNOWN, ':') == None;
  }

  lemma PlainHost()
    ensures DidUrl.EncodeHost("a") == "a"
  {
  }

  const SLASHED := "https://a/b/did.jsonl/"

  lemma SlashedHost()
    ensures DidUrl.HostAndPath(SLASHED) == Ok(("a", "b/did.jsonl/"))
  {
    assert SLASHED == DidUrl.SCHEME + "a/b/did.jsonl/" && "a/b/did.jsonl/" == "a" + ['/'] + "b/did.jsonl/";
    StripPrefixOf(DidUrl.SCHEME, "a/b/did.jsonl/");
    SplitOnceAt("a", '/', "b/did.jsonl/");
  }

  lemma SlashedSegments()
    ensures DidUrl.Segments("b/did.jsonl/") == ["b", DidUrl.INDEX_FILE]
  {
    hide DidUrl.Segments;
    assert "b/did.jsonl/" == "b" + "/" + (DidUrl.INDEX_FILE + "/" + "");
    DidUrl.SegmentsAppend("b", DidUrl.INDEX_FILE + "/" + "");
    DidUrl.SegmentsAppend(DidUrl.INDEX_FILE, "");
    DidUrl.SegmentsOne("b");
    DidUrl.SegmentsOne(DidUrl.INDEX_FILE);
    DidUrl.SegmentsOne("");
  }

  lemma SlashedSuffix()
    ensures StripSuffix(SLASHED, "/" + DidUrl.INDEX_FILE).None?
  {
    var tail := "/" + DidUrl.INDEX_FILE;
    assert tail[|tail| - 1] == 'l' && SLASHED[|SLASHED| - 1] == '/';
  }

  /** Input: with a slash behind the file name create and rotate address different registry entries. */
  lemma SlashBehindTheFileName()
    ensures DidUrl.UrlToDidComponents(SLASHED) == Ok(("a", Some("b")))
    ensures DidUrl.ExtractIdentifier(SLASHED) == Some("did.jsonl")
    ensures DidUrl.ExtractRegistryIdentifier(Did.Did(Did.Tdw, Some("s"), "a", Some("b"))) == Some("b")
  {
    hide DidUrl.HostAndPath, DidUrl.Segments, DidUrl.ExtractIdentifier;
    SlashedHost();
    SlashedSegments();
    SlashedSuffix();
    PlainHost();
    assert ["b", DidUrl.INDEX_FILE][..1] == ["b"];
    DidUrl.ExtractedSegment(SLASHED);
    assert LastPiece("b", ':') == "b";
  }

  // --- a rotation after a deactivation ---

  lemma DeactivateGoesThrough(tool: Tool, w: World, did: Did.Did, now: int)
    requires LawfulTool(tool) && Active(tool, w, did) && ClockOk(now) && |EntriesOf(tool, w.text)| < 10000
    requires Trim(did.ToString()) == did.ToString()
    ensures var r := DeactivateResult(tool, w.dirs, w.text, now);
            r.Ok? && Deactivated(tool, World(r.value, w.dirs), did)
  {
    hide Active, DeactivateResult, Deactivated, Did.Did.ToString, Trim, LatestVersion, EntriesOf, EndedText, Stored,
         LawfulTool;
    var current := ActiveKeys(tool, w, did);
    DeactivateOutcome(tool, w, did, current, now);
    ActiveFlag(tool, w, did);
    DeactivateIsSound(tool, w, did, now);
  }

  lemma ActiveFlag(tool: Tool, w: World, did: Did.Did)
    requires Active(tool, w, did)
    ensures var entries := EntriesOf(tool, w.text);
            entries != [] && entries[|entries| - 1].parameters.deactivated.None?
  {
    hide Active, SoundLog, InStep, Accepted;
    ActiveLogIsSound(tool, w, did);
  }

  lemma PathB()
    ensures SimplePath("b") && UrlAt("b") == "https://a/b/did.jsonl"
    ensures !IsWhitespace('b') && !IsWhitespace('d') && "b"[0] == 'b'
  {
  }

  /** Input: create, deactivate and rotate all go through, and the verifier rejects what the rotate wrote. */
  lemma RotatedAfterDeactivation(keys: KeySet, generated: KeySet, now: int)
    requires ClockOk(now)
    ensures UrlAt("b") == "https://a/b/did.jsonl"
    ensures var tool := SomeTool();
      var created := CreateResult(tool, map[], UrlAt("b"), Tdw03, keys, now);
      && created.Ok?
      && var (did, text, dirs) := created.value;
      var ended := DeactivateResult(tool, dirs, text, now);
      && ended.Ok?
      && VerifyResult(tool.crypto, EntriesOf(tool, ended.value), did).Ok?
      && var rotated := RotateResult(tool, dirs, ended.value, [All], NO_FILES, generated, now);
      && rotated.Ok?
      && VerifyResult(tool.crypto, EntriesOf(tool, rotated.value.0), did).Err?
  {
    hide *;
    var tool := SomeTool();
    PathB();
    SomeToolIsLawful();
    CreatedAt("b", keys, now);
    var (did, text, dirs) := CreateResult(tool, map[], UrlAt("b"), Tdw03, keys, now).value;
    DidEnds(did, "b");
    TrimKeeps(did.ToString());
    DeactivateGoesThrough(tool, World(text, dirs), did, now);
    var ended := World(DeactivateResult(tool, dirs, text, now).value, dirs);
    SoundWorldLog(tool, ended, did);
    SoundIsAccepted(tool, EntriesOf(tool, ended.text), did);
    DeactivatedLogCanBeRotated(tool, ended, did, generated, now);
    var _ := RotateAfterDeactivateBreaksTheLog(tool, ended, did, [All], NO_FILES, generated, now);
  }

  // --- a log behind an entry of another format ---

  const FOREIGN := LogEntry(WebVh10, "", "", NoParameters(WebVh10), Patch(Null), [])

  /** Input: with a did:webvh line in front, the created log goes unverified and is rotated all the same. */
  lemma RotatedBehindForeignLine(keys: KeySet, generated: KeySet, now: int, other: Did.Did)
    requires ClockOk(now)
    ensures var tool := SomeTool();
      var created := CreateResult(tool, map[], UrlAt("b"), Tdw03, keys, now);
      && created.Ok?
      && var text := tool.text.print_(FOREIGN.ToJson()) + "\n" + created.value.1;
      && VerifyResult(tool.crypto, EntriesOf(tool, text), other).Err?
      && RotateResult(tool, created.value.2, text, [All], NO_FILES, generated, now).Ok?
  {
    var tool := SomeTool();
    ForeignIsNormal(tool);
    hide *;
    PathB();
    SomeToolIsLawful();
    CreatedAt("b", keys, now);
    var (did, text, dirs) := CreateResult(tool, map[], UrlAt("b"), Tdw03, keys, now).value;
    DidEnds(did, "b");
    TrimKeeps(did.ToString());
    RotatedBehindForeignEntry(tool, World(text, dirs), did, FOREIGN, [All], NO_FILES, generated, now, other);
  }

  lemma ForeignIsNormal(tool: Tool)
    ensures FOREIGN.format == WebVh10 == FOREIGN.parameters.format && FOREIGN.Normalise() == FOREIGN
    ensures GoodOptions(tool, [All], NO_FILES)
  {
  }

  // --- rotations past the last snapshot name ---

  const FIRST_KEYS := KeySet([], [], [])
  const OTHER_KEYS := KeySet([1], [], [])

  /** The same rotation, all keys anew each time. */
  function Rotations(n: nat, now: int): seq<Command> {
    seq(n, _ => Rotate([All], NO_FILES, FIRST_KEYS, now))
  }

  lemma AllRotate(n: nat, now: int)
    requires ClockOk(now)
    ensures |Rotations(n, now)| == n && forall cmd | cmd in Rotations(n, now) :: RotatesAll(cmd)
  {
  }

  lemma KeysDiffer()
    ensures AuthorizedMultikey(SomeTool(), FIRST_KEYS) != AuthorizedMultikey(SomeTool(), OTHER_KEYS)
  {
    hide Multikey;
    TwoPublicKeys();
  }

  /**
   Input: create and 9998 rotations fill the snapshot names.  The next rotation, to another key, is
   accepted; after it the store still gives the first keys, and the log of one more rotation is rejected.
   */
  lemma RotatedPastTheLimit(generated: KeySet, now: int)
    requires ClockOk(now)
    ensures UrlAt("b") == "https://a/b/did.jsonl"
    ensures var tool := SomeTool();
      var created := CreateResult(tool, map[], UrlAt("b"), Tdw03, FIRST_KEYS, now);
      && created.Ok?
      && var (did, text, dirs) := created.value;
      var w := Run(tool, World(text, dirs), Rotations(9998, now));
      && |EntriesOf(tool, w.text)| == 9999
      && var first := RotateResult(tool, w.dirs, w.text, [All], NO_FILES, OTHER_KEYS, now);
      && first.Ok?
      && VerifyResult(tool.crypto, EntriesOf(tool, first.value.0), did).Ok?
      && var second := RotateResult(tool, first.value.1, first.value.0, [All], NO_FILES, generated, now);
      && second.Ok?
      && VerifyResult(tool.crypto, EntriesOf(tool, second.value.0), did).Err?
  {
    hide *;
    var tool, cmds := SomeTool(), Rotations(9998, now);
    PathB();
    AllRotate(9998, now);
    SomeToolIsLawful();
    CreatedAt("b", FIRST_KEYS, now);
    var (did, text, dirs) := CreateResult(tool, map[], UrlAt("b"), Tdw03, FIRST_KEYS, now).value;
    DidEnds(did, "b");
    TrimKeeps(did.ToString());
    RotatableMeans(tool, World(text, dirs), did);
    RotationsGoThrough(tool, World(text, dirs), did, cmds);
    var w := Run(tool, World(text, dirs), cmds);
    RotatableMeans(tool, w, did);
    NewestIsFirst(tool, World(text, dirs), w, did, now);
    RotateAllPastLimit(tool, w, did, FIRST_KEYS, OTHER_KEYS, now, generated, now);
    KeysDiffer();
  }

  lemma RotatableMeans(tool: Tool, w: World, did: Did.Did)
    ensures Rotatable(tool, w, did) <==>
            LawfulTool(tool) && Active(tool, w, did) && Trim(did.ToString()) == did.ToString()
  {
    hide LawfulTool, Active, Trim, Did.Did.ToString;
  }

  lemma NewestIsFirst(tool: Tool, start: World, w: World, did: Did.Did, now: int)
    requires |EntriesOf(tool, start.text)| == 1 && WentThrough(tool, start, did, Rotations(9998, now), w)
    ensures |EntriesOf(tool, w.text)| == 9999 && tool.didHash(did.ToString()) in w.dirs
    ensures KeysAt(w.dirs[tool.didHash(did.ToString())], 9999) == Some(FIRST_KEYS)
  {
    hide EntriesOf, KeysAt, Did.Did.ToString;
    var cmds := Rotations(9998, now);
    assert cmds[9997] == Rotate([All], NO_FILES, FIRST_KEYS, now);
  }

  // --- a DID with two genesis entries ---

  function NotedDocument(id: string, note: string): Json {
    Obj(map["id" := Str(id), "note" := Str(note)])
  }

  function NotedBody(scid: string, time: string, mk: string, id: string, note: string): Json {
    GenesisBody(scid, time, mk, NotedDocument(id, note))
  }

  lemma NotedTexts(id: string, note: string, p: string -> bool)
    requires p("id") && p("note") && p(id) && p(note)
    ensures AllTexts(NotedDocument(id, note), p)
  {
    hide AllTexts;
    TextsOfString(id, p);
    TextsOfString(note, p);
    TextsOfObject(NotedDocument(id, note).members, p);
  }

  /** The noted preliminary entry of a DID; its note is the placeholder. */
  function NotedPreliminary(tool: Tool, rest: string, keys: KeySet, time: string): Json {
    NotedBody(PLACEHOLDER, time, AuthorizedMultikey(tool, keys), DidText(rest), PLACEHOLDER)
  }

  lemma NotedPreliminaryBordered(tool: Tool, rest: string, keys: KeySet, time: string)
    requires LawfulTool(tool) && Plain(time) && !Contains(rest, PLACEHOLDER)
    ensures BorderedTexts(NotedPreliminary(tool, rest, keys, time))
  {
    assert Plain("id") && Plain("note");
    FixedTextsAreBordered();
    MultikeyIsPlain(tool, keys);
    hide Plain, Bordered, AllTexts, DidText, AuthorizedMultikey, NotedDocument, Contains, LawfulTool, OnNames,
         OnConstants;
    PlainIsFree("id");
    PlainIsFree("note");
    PlainIsFree(time);
    PlainIsFree(AuthorizedMultikey(tool, keys));
    PlaceholderSubstituted("");
    DidTextBordered(rest);
    NotedTexts(DidText(rest), PLACEHOLDER, Bordered);
    BodyTexts(PLACEHOLDER, time, AuthorizedMultikey(tool, keys), NotedDocument(DidText(rest), PLACEHOLDER), Bordered);
  }

  lemma SubstitutedNote(rest: string, scid: string)
    requires !Contains(rest, PLACEHOLDER)
    ensures ReplaceStrings(NotedDocument(DidText(rest), PLACEHOLDER), PLACEHOLDER, scid)
            == NotedDocument(RealDid(rest, scid), scid)
  {
    assert Plain("id") && Plain("note");
    SubstitutedDid(rest, scid);
    PlaceholderSubstituted(scid);
    ReplacedString(DidText(rest), PLACEHOLDER, scid);
    ReplacedString(PLACEHOLDER, PLACEHOLDER, scid);
    hide ReplaceStrings, ReplaceAll, Contains, Plain, DidText, RealDid;
    SubstitutedObject(NotedDocument(DidText(rest), PLACEHOLDER).members,
                      NotedDocument(RealDid(rest, scid), scid).members, scid);
  }

  lemma ReplacedDocument(id: string, note: string, pat: string, rep: string)
    requires pat != "" && !Contains("id", pat) && !Contains("note", pat)
    ensures ReplaceStrings(NotedDocument(id, note), pat, rep)
            == NotedDocument(ReplaceAll(id, pat, rep), ReplaceAll(note, pat, rep))
  {
    hide Contains, ReplaceAll, ReplaceStrings;
    ReplacedString(id, pat, rep);
    ReplacedString(note, pat, rep);
    ReplacedObject(NotedDocument(id, note).members,
                   NotedDocument(ReplaceAll(id, pat, rep), ReplaceAll(note, pat, rep)).members, pat, rep);
  }

  lemma ReplacedValue(document: Json, pat: string, rep: string)
    requires pat != "" && !Contains("value", pat)
    ensures ReplaceStrings(Obj(map["value" := document]), pat, rep)
               == Obj(map["value" := ReplaceStrings(document, pat, rep)])
  {
    hide Contains, ReplaceStrings;
    ReplacedObject(map["value" := document], map["value" := ReplaceStrings(document, pat, rep)], pat, rep);
  }

  /** Two notes that the verifier's substitution makes equal are forgotten by it. */
  lemma NoteIsForgotten(scid: string, time: string, mk: string, id: string, note: string, other: string)
    requires scid != "" && !Contains("id", scid) && !Contains("note", scid) && !Contains("value", scid)
    requires ReplaceAll(note, scid, PLACEHOLDER) == ReplaceAll(other, scid, PLACEHOLDER)
    ensures ReplaceStrings(NotedBody(scid, time, mk, id, note), scid, PLACEHOLDER)
            == ReplaceStrings(NotedBody(scid, time, mk, id, other), scid, PLACEHOLDER)
  {
    ReplacedDocument(id, note, scid, PLACEHOLDER);
    ReplacedDocument(id, other, scid, PLACEHOLDER);
    ReplacedValue(NotedDocument(id, note), scid, PLACEHOLDER);
    ReplacedValue(NotedDocument(id, other), scid, PLACEHOLDER);
    hide Contains, ReplaceAll, NotedDocument, LogParameters.ToJson;
    var a, b := NotedBody(scid, time, mk, id, note).items, NotedBody(scid, time, mk, id, other).items;
    ReplacedArray(a, ReplaceStrings(Arr(b), scid, PLACEHOLDER).items, scid, PLACEHOLDER);
  }

  /** A signed genesis entry with the given note. */
  function NotedEntry(tool: Tool, rest: string, keys: KeySet, time: string, note: string): LogEntry {
    var scid := HashLogEntry(tool.crypto, NotedPreliminary(tool, rest, keys, time));
    var mk, document := AuthorizedMultikey(tool, keys), NotedDocument(RealDid(rest, scid), note);
    var versionId := "1-" + HashLogEntry(tool.crypto, GenesisBody(scid, time, mk, document));
    TypedGenesis(versionId, scid, time, mk, document,
                 SignedProof(tool, keys, document, Proof.Authentication, versionId, time)).Normalise()
  }

  /** Both notes lead the verifier back to the same preliminary entry. */
  lemma NotedPreliminaryFound(tool: Tool, rest: string, keys: KeySet, time: string, note: string)
    requires LawfulTool(tool) && Plain(time) && !Contains(rest, PLACEHOLDER)
    requires ScidIsFresh(tool, NotedPreliminary(tool, rest, keys, time))
    requires note == PLACEHOLDER || note == HashLogEntry(tool.crypto, NotedPreliminary(tool, rest, keys, time))
    ensures var prelim := NotedPreliminary(tool, rest, keys, time);
      var scid := HashLogEntry(tool.crypto, prelim);
      && scid != ""
      && var body := NotedBody(scid, time, AuthorizedMultikey(tool, keys), RealDid(rest, scid), note);
         ReplaceStrings(body, scid, PLACEHOLDER) == prelim
  {
    var prelim, mk := NotedPreliminary(tool, rest, keys, time), AuthorizedMultikey(tool, keys);
    var scid := HashLogEntry(tool.crypto, prelim);
    ScidText(tool, prelim);
    NotedPreliminaryBordered(tool, rest, keys, time);
    MultikeyIsPlain(tool, keys);
    NotedPreliminaryNames(tool, rest, keys, time);
    hide HashLogEntry, Contains, Bordered, Texts, AuthorizedMultikey, DidText, RealDid, GenesisBody, ReplaceStrings,
         ReplaceAll, AllBase58, Plain, LawfulTool, NotedDocument;
    SubstitutedNote(rest, scid);
    SubstitutedShape(time, mk, NotedDocument(DidText(rest), PLACEHOLDER), scid);
    ValueSubstitutionUndone(prelim, scid);
    NotesAreReplaced(scid);
    NoteIsForgotten(scid, time, mk, RealDid(rest, scid), note, scid);
  }

  lemma NotedPreliminaryNames(tool: Tool, rest: string, keys: KeySet, time: string)
    ensures {"id", "note", "value", PLACEHOLDER} <= Texts(NotedPreliminary(tool, rest, keys, time))
  {
    hide DidText, AuthorizedMultikey, LogParameters.ToJson;
    var prelim := NotedPreliminary(tool, rest, keys, time);
    var document := NotedDocument(DidText(rest), PLACEHOLDER);
    assert Texts(document) >= {"id", "note"};
    assert prelim.items[3] == Obj(map["value" := document]);
    assert Texts(prelim.items[3]) >= {"value"} + Texts(document);
    assert Texts(prelim.items[0]) == {PLACEHOLDER};
  }

  lemma NotesAreReplaced(scid: string)
    requires scid != "" && !Contains(PLACEHOLDER, scid)
    ensures ReplaceAll(PLACEHOLDER, scid, PLACEHOLDER) == PLACEHOLDER == ReplaceAll(scid, scid, PLACEHOLDER)
  {
    ReplaceInFree(PLACEHOLDER, scid, PLACEHOLDER);
    assert "" + scid + "" == scid && "" + PLACEHOLDER + "" == PLACEHOLDER;
    ReplaceAtFirst("", scid, "", PLACEHOLDER);
  }

  lemma NotedEntryFields(tool: Tool, rest: string, keys: KeySet, time: string, note: string)
    ensures var e := NotedEntry(tool, rest, keys, time, note);
      var scid := HashLogEntry(tool.crypto, NotedPreliminary(tool, rest, keys, time));
      var body := NotedBody(scid, time, AuthorizedMultikey(tool, keys), RealDid(rest, scid), note);
      && e.format == Tdw03 && DocumentIdIs(e, RealDid(rest, scid))
      && e.state == Value(NotedDocument(RealDid(rest, scid), note))
      && e.versionId == "1-" + HashLogEntry(tool.crypto, body) && HashingForm(e, scid) == body
      && e.parameters.updateKeys == Some([AuthorizedMultikey(tool, keys)])
      && e.proofs == [SignedProof(tool, keys, e.state.doc, Proof.Authentication, e.versionId, time)]
  {
    hide HashLogEntry, SignedProof, RealDid, LogParameters.ToJson, AuthorizedMultikey, HashingForm, NotedPreliminary;
    var scid := HashLogEntry(tool.crypto, NotedPreliminary(tool, rest, keys, time));
    var mk, document := AuthorizedMultikey(tool, keys), NotedDocument(RealDid(rest, scid), note);
    var versionId := "1-" + HashLogEntry(tool.crypto, GenesisBody(scid, time, mk, document));
    GenesisHashingForm(versionId, scid, time, mk, document,
                       SignedProof(tool, keys, document, Proof.Authentication, versionId, time));
  }

  lemma NotedEntryAccepted(tool: Tool, domain: string, path: Option<string>, keys: KeySet, time: string, note: string)
    requires LawfulTool(tool) && Plain(time) && !Contains(Remainder(domain, path), PLACEHOLDER)
    requires ScidIsFresh(tool, NotedPreliminary(tool, Remainder(domain, path), keys, time))
    requires var scid := HashLogEntry(tool.crypto, NotedPreliminary(tool, Remainder(domain, path), keys, time));
             note == PLACEHOLDER || note == scid
    ensures var prelim := NotedPreliminary(tool, Remainder(domain, path), keys, time);
      var did := Did.Did(Did.Tdw, Some(HashLogEntry(tool.crypto, prelim)), domain, path);
      var log := [NotedEntry(tool, Remainder(domain, path), keys, time, note)];
      Accepted(tool.crypto, log, did) && did.scid.value != "" && Preliminary(log, did) == prelim
  {
    var c, rest, mk := tool.crypto, Remainder(domain, path), AuthorizedMultikey(tool, keys);
    var prelim := NotedPreliminary(tool, rest, keys, time);
    var scid := HashLogEntry(c, prelim);
    var did := Did.Did(Did.Tdw, Some(scid), domain, path);
    var e := NotedEntry(tool, rest, keys, time, note);
    var body := NotedBody(scid, time, mk, RealDid(rest, scid), note);
    PlaceholderDidText(domain, path, scid);
    assert did.ToString() == RealDid(rest, scid);
    hide HashLogEntry, SignedProof, RealDid, AuthorizedMultikey, HashingForm, NotedPreliminary, NotedEntry,
         NotedBody, ReplaceStrings, SignedByOneOf, DocumentIdIs, ScidIsFresh, Contains, LawfulTool, Plain,
         Did.Did.ToString;
    NotedPreliminaryFound(tool, rest, keys, time, note);
    NotedEntryFields(tool, rest, keys, time, note);
    SignedBySnapshot(tool, e, keys, Proof.Authentication, e.versionId, time, [mk]);
    SingleEntryAccepted(c, e, did, body, [mk]);
  }

  /** Two logs that self-certification would tell apart, were it not for their placeholders. */
  ghost predicate TwoGeneses(c: Crypto, did: Did.Did, a: seq<LogEntry>, b: seq<LogEntry>) {
    && Accepted(c, a, did) && Accepted(c, b, did) && did.scid.value != ""
    && CollisionFree(c, {Preliminary(a, did), Preliminary(b, did)})
    && !SameContent(a[0], b[0])
  }

  /**
   For every domain and path: one DID, two accepted logs whose documents differ, and no collision among
   the values hashed for the SCID.  The second document holds a literal placeholder.
   */
  lemma TwoGenesisEntries(tool: Tool, domain: string, path: Option<string>, keys: KeySet, time: string)
    requires LawfulTool(tool) && Plain(time) && !Contains(Remainder(domain, path), PLACEHOLDER)
    requires ScidIsFresh(tool, NotedPreliminary(tool, Remainder(domain, path), keys, time))
    ensures var scid := HashLogEntry(tool.crypto, NotedPreliminary(tool, Remainder(domain, path), keys, time));
      var did := Did.Did(Did.Tdw, Some(scid), domain, path);
      var a := [NotedEntry(tool, Remainder(domain, path), keys, time, scid)];
      var b := [NotedEntry(tool, Remainder(domain, path), keys, time, PLACEHOLDER)];
      TwoGeneses(tool.crypto, did, a, b)
  {
    hide HashLogEntry, NotedPreliminary, NotedEntry, Accepted, Preliminary, RealDid, ScidIsFresh, LawfulTool, Contains,
         Plain, Remainder, CollisionFree, SameContent;
    var rest := Remainder(domain, path);
    var scid := HashLogEntry(tool.crypto, NotedPreliminary(tool, rest, keys, time));
    var did := Did.Did(Did.Tdw, Some(scid), domain, path);
    var a, b := NotedEntry(tool, rest, keys, time, scid), NotedEntry(tool, rest, keys, time, PLACEHOLDER);
    NotedEntryAccepted(tool, domain, path, keys, time, scid);
    NotedEntryAccepted(tool, domain, path, keys, time, PLACEHOLDER);
    NotedEntryFields(tool, rest, keys, time, scid);
    NotedEntryFields(tool, rest, keys, time, PLACEHOLDER);
    ScidIsNotPlaceholder(tool, NotedPreliminary(tool, rest, keys, time));
    DifferentNotes(a, b, RealDid(rest, scid), scid, PLACEHOLDER);
    OneValueDoesNotCollide(tool.crypto, Preliminary([a], did), Preliminary([b], did));
  }

  lemma ScidIsNotPlaceholder(tool: Tool, v: Json)
    requires LawfulTool(tool)
    ensures HashLogEntry(tool.crypto, v) != PLACEHOLDER
  {
    hide HashLogEntry, LawfulTool;
    ScidText(tool, v);
    assert PLACEHOLDER[0] in PLACEHOLDER && !IsBase58(PLACEHOLDER[0]);
  }

  lemma DifferentNotes(a: LogEntry, b: LogEntry, id: string, x: string, y: string)
    requires a.state == Value(NotedDocument(id, x)) && b.state == Value(NotedDocument(id, y)) && x != y
    ensures !SameContent(a, b)
  {
    assert NotedDocument(id, x).members["note"] == Str(x) && NotedDocument(id, y).members["note"] == Str(y);
  }

  lemma OneValueDoesNotCollide(c: Crypto, a: Json, b: Json)
    requires a == b
    ensures CollisionFree(c, {a, b})
  {
  }

  lemma NotedPreliminaryIsFresh(rest: string, keys: KeySet, time: string)
    requires NoQ(rest) && NoQ(time)
    ensures ScidIsFresh(SomeTool(), NotedPreliminary(SomeTool(), rest, keys, time))
  {
    assert NoQ("id") && NoQ("note") && NoQ(PLACEHOLDER);
    DidWithoutQ(rest);
    hide SomeTool, NoQ, AuthorizedMultikey, AllTexts, DidText, ScidIsFresh, GenesisBody, NotedDocument, OnNames,
         OnConstants;
    FixedTextsWithoutQ();
    MultikeyWithoutQ(keys);
    NotedTexts(DidText(rest), PLACEHOLDER, NoQ);
    BodyTexts(PLACEHOLDER, time, AuthorizedMultikey(SomeTool(), keys), NotedDocument(DidText(rest), PLACEHOLDER), NoQ);
    BodyIsFresh(NotedPreliminary(SomeTool(), rest, keys, time));
  }

  /** Input: two accepted logs of one DID with different genesis content. */
  lemma TwoGenesisLogs(keys: KeySet) returns (did: Did.Did, a: seq<LogEntry>, b: seq<LogEntry>)
    ensures TwoGeneses(SomeTool().crypto, did, a, b)
  {
    assert NoQ("a") && NoQ("0") && Plain("0") && Plain("a") && Remainder("a", None) == "a";
    hide *;
    PlainIsFree("a");
    SomeToolIsLawful();
    NotedPreliminaryIsFresh("a", keys, "0");
    TwoGenesisEntries(SomeTool(), "a", None, keys, "0");
    var scid := HashLogEntry(SomeTool().crypto, NotedPreliminary(SomeTool(), "a", keys, "0"));
    did := Did.Did(Did.Tdw, Some(scid), "a", None);
    a := [NotedEntry(SomeTool(), "a", keys, "0", scid)];
    b := [NotedEntry(SomeTool(), "a", keys, "0", PLACEHOLDER)];
  }
}
