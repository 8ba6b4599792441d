/**
 Whose signature a trusted statement carries.  `trust verify` compares a statement's `iss` with the
 expected issuer, but checks its signature under the DID that its `kid` names.
 */
module TrustAnchor {
  import opened Basics
  import opened Text
  import opened Json
  import opened PublicKeys
  import opened StatusLists
  import opened TrustStatements
  import opened TrustVerify
  import opened Wire
  import Did
  import DidDoc
  import DidUrl
  import Instance
  import Jsonl
  import LogEntry

  /** Signed with a key that the expected issuer's own document lists under one of its key ids. */
  predicate SignedByIssuer(env: Env, expected: string, stmt: TrustStatement) {
    KidDid(stmt.kid) == Some(expected) && SignedUnder(env, expected, stmt.kid, stmt.signingInput, stmt.signature)
  }

  /** A positive verdict is the issuer's signature exactly when the statement's key id names the issuer. */
  lemma VerdictIsTheIssuers(env: Env, expected: string, now: u64, stmt: TrustStatement)
    requires ReportOn(env, expected, now, stmt).Ok? && ReportOn(env, expected, now, stmt).value.verdict
    ensures SignedByIssuer(env, expected, stmt) <==> KidDid(stmt.kid) == Some(expected)
  {
    hide ReportOn, SignedUnder, KidDid, NotRevoked;
    VerdictIsExact(env, expected, now, stmt);
  }

  /** A statement that names the issuer but is signed by any other resolvable DID gets a positive verdict. */
  lemma OtherSignerIsTrusted(env: Env, expected: string, other: string, now: u64, stmt: TrustStatement)
    requires other != expected && stmt.iss == expected && stmt.alg == "ES256" && KidDid(stmt.kid) == Some(other)
    requires SignedUnder(env, other, stmt.kid, stmt.signingInput, stmt.signature)
    requires Current(stmt, now) && NotRevoked(env, expected, stmt)
    ensures ReportOn(env, expected, now, stmt).Ok? && ReportOn(env, expected, now, stmt).value.verdict
    ensures !SignedByIssuer(env, expected, stmt)
  {
    hide ReportOn, SignedUnder, KidDid, NotRevoked;
    VerdictIsExact(env, expected, now, stmt);
  }

  predicate IssuersToken(env: Env, expected: string, now: u64, text: string) {
    TrustworthyToken(env, expected, now, text) && SignedByIssuer(env, expected, FromJwt(env.w, text).value)
  }

  predicate NamesIssuer(w: Wire, expected: string, text: string) {
    FromJwt(w, text).Ok? ==> KidDid(FromJwt(w, text).value.kid) == Some(expected)
  }

  lemma TokenIsTheIssuers(env: Env, expected: string, now: u64, text: string)
    ensures IssuersToken(env, expected, now, text) <==>
            TrustworthyToken(env, expected, now, text) && NamesIssuer(env.w, expected, text)
  {
    hide FromJwt, SignedUnder, KidDid, NotRevoked;
  }

  /**
   The outcome: it rests on a statement the issuer signed exactly when it is positive and some trustworthy
   token names the issuer in its key id.
   */
  lemma OutcomeIsTheIssuers(env: Env, req: Request, tokens: seq<string>)
    requires req.registryUrl.Some? && req.trustIssuer.Some? && req.did.Ok?
    requires req.statements(req.registryUrl.value, req.did.value) == Ok(tokens)
    requires VerifyAll(env, req).Ok?
    ensures var expected := req.trustIssuer.value;
      (exists text :: text in tokens && IssuersToken(env, expected, req.now, text)) <==>
      VerifyAll(env, req).value.outcome == Trusted &&
      (exists text :: text in tokens && TrustworthyToken(env, expected, req.now, text)
          && NamesIssuer(env.w, expected, text))
  {
    hide VerifyAll, TrustworthyToken, IssuersToken, NamesIssuer;
    OutcomeIsExact(env, req, tokens);
    forall text ensures IssuersToken(env, req.trustIssuer.value, req.now, text) <==>
      TrustworthyToken(env, req.trustIssuer.value, req.now, text) && NamesIssuer(env.w, req.trustIssuer.value, text)
    {
      TokenIsTheIssuers(env, req.trustIssuer.value, req.now, text);
    }
  }

  /** What a caller can check of the tokens: if all key ids name the issuer, trusted means signed by the issuer. */
  lemma KeyIdsOfTheIssuer(env: Env, req: Request, tokens: seq<string>)
    requires req.registryUrl.Some? && req.trustIssuer.Some? && req.did.Ok?
    requires req.statements(req.registryUrl.value, req.did.value) == Ok(tokens)
    requires VerifyAll(env, req).Ok?
    requires forall text | text in tokens :: NamesIssuer(env.w, req.trustIssuer.value, text)
    ensures VerifyAll(env, req).value.outcome == Trusted <==>
            exists text :: text in tokens && IssuersToken(env, req.trustIssuer.value, req.now, text)
  {
    hide VerifyAll, TrustworthyToken, IssuersToken, NamesIssuer;
    OutcomeIsExact(env, req, tokens);
    OutcomeIsTheIssuers(env, req, tokens);
  }

  // --- an environment with two DIDs ---

  function DidOf(domain: string): Did.Did {
    Did.Did(Did.Tdw, Some("s"), domain, None)
  }

  function Name(domain: string): string {
    DidOf(domain).ToString()
  }

  function KeyId(domain: string): string {
    Name(domain) + "#" + "k"
  }

  const ISSUER := "issuer"
  const OTHER := "other"

  function KeyOf(domain: string): PublicKeyJwk {
    EC("P-256", domain, "", JwkOptions(None, None, None, None))
  }

  /** A document with one key, under one key id. */
  function DocOf(domain: string): DidDoc.DidDoc {
    DidDoc.DidDoc(DidDoc.CONTEXT, Name(domain), [], [],
                  [DidDoc.VerificationMethod(KeyId(domain), "JsonWebKey2020", Name(domain), Jwk(KeyOf(domain)))],
                  [], [], [], [], [], [])
  }

  function Header(kid: string): Json {
    Obj(map["alg" := Str("ES256"), "kid" := Str(kid)])
  }

  function StatementPayload(): Json {
    Obj(map["iss" := Str(Name(ISSUER)), "iat" := Int(0), "status" := Obj(map["status_list" := Pointer()])])
  }

  function Pointer(): Json {
    PointerToJson(StatusListPointer("t", 0, "u"))
  }

  function ListPayload(): Json {
    Obj(map["status_list" := Obj(map["bits" := Int(1), "lst" := Str("l")])])
  }

  function Segment(text: string): Bytes {
    if text == "s" then Instance.Zeros(64)
    else if text == "k" then [1] else if text == "q" then [2] else if text == "h" then [3] else if text == "p" then [4]
    else []
  }

  function SegmentJson(bytes: Bytes): Option<Json> {
    if bytes == [1] then Some(Header(KeyId(OTHER)))
    else if bytes == [2] then Some(StatementPayload())
    else if bytes == [3] then Some(Header(KeyId(ISSUER)))
    else if bytes == [4] then Some(ListPayload())
    else None
  }

  function SomeWire(): Wire {
    Wire(_ => "", s => Some(Segment(s)), b => b, _ => Some([0]), b => SegmentJson(b), _ => [])
  }

  ghost function EntryOf(domain: string): LogEntry.LogEntry {
    LogEntry.LogEntry(LogEntry.Tdw03, "", "", LogEntry.NoParameters(LogEntry.Tdw03),
                      LogEntry.Value(DidDoc.DocToJson(Instance.SomeCrypto(), DocOf(domain))), [])
  }

  function Served(url: string): Result<FetchOutcome, FetchError> {
    Ok(Found(if url == "u" then "h.p.s" else if url == DidUrl.LogUrl(DidOf(ISSUER)) then "x" else "y"))
  }

  function KeyBytes(jwk: PublicKeyJwk): Option<Bytes> {
    if jwk == KeyOf(ISSUER) then Some([1]) else if jwk == KeyOf(OTHER) then Some([2]) else None
  }

  /** The issuer signed the status list token, and nothing else; the other DID signed the statement. */
  predicate Signs(key: Bytes, input: string) {
    if key == [1] then input == "h.p" else key == [2] && input == "k.q"
  }

  ghost function SomeEnv(): Env {
    var issuer, other := EntryOf(ISSUER).ToJson(), EntryOf(OTHER).ToJson();
    Env(Instance.SomeCrypto(), SomeWire(), Jsonl.JsonText(_ => "", text => Ok(if text == "x" then issuer else other)),
        url => Served(url), jwk => KeyBytes(jwk), (key, input, _) => Signs(key, input))
  }

  predicate OneLabel(domain: string) {
    domain == ISSUER || domain == OTHER
  }

  lemma LabelIsDomain(domain: string)
    requires OneLabel(domain)
    ensures Did.IsValidDomain(domain) && ':' !in domain && '#' !in domain
  {
    assert Split(domain, '.') == [domain];
  }

  lemma NameParses(domain: string)
    requires OneLabel(domain)
    ensures Did.FromStr(Name(domain)) == Ok(DidOf(domain))
  {
    hide Did.FromStr, Did.IsValidDomain;
    LabelIsDomain(domain);
    Did.ParseOfPrint(DidOf(domain));
  }

  lemma KeyIdNames(domain: string)
    requires OneLabel(domain)
    ensures KidDid(KeyId(domain)) == Some(Name(domain))
  {
    LabelIsDomain(domain);
    assert '#' !in "did:tdw:" && '#' !in "s:";
    assert '#' !in Name(domain);
    hide Did.Did.ToString;
    assert KeyId(domain) == Name(domain) + ['#'] + "k";
    SplitOnceAt(Name(domain), '#', "k");
  }

  lemma NamesDiffer()
    ensures Name(ISSUER) != Name(OTHER) && KeyId(ISSUER) != KeyId(OTHER)
  {
    assert |Name(ISSUER)| == |Name(OTHER)| + 1;
  }

  function LogText(domain: string): string {
    if domain == ISSUER then "x" else "y"
  }

  lemma LogUrlLength(domain: string)
    requires OneLabel(domain)
    ensures |DidUrl.LogUrl(DidOf(domain))| == 30 + |domain|
  {
    assert '%' !in domain;
    hide ReplaceAll, Contains;
    NotContainedWithoutFirst(domain, DidUrl.PORT_ESCAPE);
    ReplaceInFree(domain, DidUrl.PORT_ESCAPE, ":");
  }

  lemma ServedLog(domain: string)
    requires OneLabel(domain)
    ensures Served(DidUrl.LogUrl(DidOf(domain))) == Ok(Found(LogText(domain)))
  {
    hide DidUrl.LogUrl, DidOf;
    LogUrlLength(ISSUER);
    LogUrlLength(domain);
    assert |"u"| == 1 && (domain == OTHER ==> |domain| + 1 == |ISSUER|);
  }

  lemma OneLine(text: string)
    requires text == "x" || text == "y"
    ensures Lines(text) == [text] && Trim(text) == text && !Jsonl.Blank(text)
  {
  }

  lemma LogParses(domain: string)
    requires OneLabel(domain)
    ensures var r := Jsonl.FromJsonl(SomeEnv().t, LogText(domain));
            r.Ok? && |r.value| == 1 && r.value[0].state == EntryOf(domain).state
  {
    var text := LogText(domain);
    assert SomeEnv().t.parse(text) == Ok(EntryOf(domain).ToJson());
    assert text == "x" || text == "y";
    hide LogEntry.EntryFromJson, EntryOf, LogEntry.LogEntry.ToJson, SomeEnv, Lines, Trim, LogText, Jsonl.Blank;
    OneLine(text);
    EntryParses(domain);
    assert [text][1..] == [] && Jsonl.ParseLines(SomeEnv().t, [], 2) == Ok([]);
  }

  lemma EntryParses(domain: string)
    ensures var r := LogEntry.EntryFromJson(EntryOf(domain).ToJson());
            r.Ok? && r.value.state == EntryOf(domain).state
  {
    LogEntry.ParsePrintedEntry(EntryOf(domain));
    hide LogEntry.EntryFromJson, DidDoc.DocToJson, DocOf, LogEntry.LogEntry.ToJson, Instance.SomeCrypto;
  }

  lemma LogFetched(domain: string)
    requires OneLabel(domain)
    ensures SomeEnv().fetch(DidUrl.LogUrl(DidOf(domain))) == Ok(Found(LogText(domain)))
  {
    hide DidUrl.LogUrl, Served, DidOf, EntryOf, Instance.SomeCrypto, SomeWire, LogText;
    ServedLog(domain);
  }

  lemma DocRead(env: Env, iss: string, url: string, text: string, doc: DidDoc.DidDoc)
    requires var log := Jsonl.FromJsonl(env.t, text);
      && log.Ok? && |log.value| == 1 && log.value[0].state == LogEntry.Value(DidDoc.DocToJson(env.c, doc))
    requires DidDoc.DocFromJson(env.c, DidDoc.DocToJson(env.c, doc)) == Ok(doc)
    ensures DocOfAnswer(env, iss, url, Ok(Found(text))) == Ok(doc)
  {
    hide Jsonl.FromJsonl, DidDoc.DocFromJson, DidDoc.DocToJson;
  }

  lemma AnswerRead(domain: string, url: string)
    requires OneLabel(domain)
    ensures DocOfAnswer(SomeEnv(), Name(domain), url, Ok(Found(LogText(domain)))) == Ok(DocOf(domain))
  {
    Instance.SomeCryptoIsLawful();
    DidDoc.ParsePrintedDoc(Instance.SomeCrypto(), DocOf(domain));
    LogParses(domain);
    assert SomeEnv().c == Instance.SomeCrypto();
    assert EntryOf(domain).state == LogEntry.Value(DidDoc.DocToJson(Instance.SomeCrypto(), DocOf(domain)));
    hide *;
    DocRead(SomeEnv(), Name(domain), url, LogText(domain), DocOf(domain));
  }

  /** Each DID resolves to its own document. */
  lemma DidResolves(domain: string)
    requires OneLabel(domain)
    ensures IssuerDoc(SomeEnv(), Name(domain)) == Ok(DocOf(domain))
  {
    NameParses(domain);
    LogFetched(domain);
    AnswerRead(domain, DidUrl.LogUrl(DidOf(domain)));
    hide Did.FromStr, DidUrl.LogUrl, DocOfAnswer, SomeEnv, Name, DidOf, DocOf, LogText;
  }

  /** The only key of a document. */
  lemma FoundKey(domain: string, kid: string)
    requires OneLabel(domain)
    ensures FindVerifyingKey(SomeEnv(), DocOf(domain), kid) ==
            if kid == KeyId(domain) then Ok(if domain == ISSUER then [1] else [2]) else Err(NoMethod(kid))
  {
    hide KeyId, Name, Instance.SomeCrypto, EntryOf, SomeWire;
    var methods := DocOf(domain).verificationMethod;
    assert FindMethod(methods[1..], kid) == None;
    assert KeyBytes(KeyOf(domain)) == Some(if domain == ISSUER then [1] else [2]);
  }

  /** What the two DIDs signed. */
  lemma SignedInputs(domain: string, kid: string, input: string)
    requires OneLabel(domain)
    ensures SignedUnder(SomeEnv(), Name(domain), kid, input, Instance.Zeros(64)) <==>
            kid == KeyId(domain) && input == if domain == ISSUER then "h.p" else "k.q"
  {
    hide *;
    var key := if domain == ISSUER then [1] else [2];
    DidResolves(domain);
    FoundKey(domain, kid);
    KeySigns(key, input);
    SignedByFound(domain, kid, input);
  }

  lemma SignedByFound(domain: string, kid: string, input: string)
    requires IssuerDoc(SomeEnv(), Name(domain)) == Ok(DocOf(domain))
    ensures SignedUnder(SomeEnv(), Name(domain), kid, input, Instance.Zeros(64)) <==>
            var key := FindVerifyingKey(SomeEnv(), DocOf(domain), kid);
            key.Ok? && SignatureHolds(SomeEnv(), key.value, input, Instance.Zeros(64))
  {
    hide IssuerDoc, FindVerifyingKey, Name, DocOf, SomeEnv, SignatureHolds;
  }

  lemma KeySigns(key: Bytes, input: string)
    ensures SignatureHolds(SomeEnv(), key, input, Instance.Zeros(64)) <==>
            if key == [1] then input == "h.p" else key == [2] && input == "k.q"
  {
    hide EntryOf, Instance.SomeCrypto, SomeWire;
  }

  lemma ThreeSegments(a: string, b: string, c: string)
    requires '.' !in a && '.' !in b && '.' !in c
    ensures Split(a + "." + b + "." + c, '.') == [a, b, c]
  {
    assert a + "." + b + "." + c == a + ['.'] + (b + ['.'] + c);
    SplitFirst(a, '.', b + ['.'] + c);
    SplitFirst(b, '.', c);
    assert Split(c, '.') == [c];
  }

  function ListTokenServed(): ListToken {
    ListToken(Header(KeyId(ISSUER)), ListPayload(), Instance.Zeros(64), "h" + "." + "p")
  }

  lemma HeaderFields(kid: string)
    ensures Header(kid).GetStr("alg") == Some("ES256") && Header(kid).GetStr("kid") == Some(kid)
  {
  }

  lemma ListText()
    ensures SomeEnv().fetch("u") == Ok(Found("h.p.s")) && SomeEnv().w == SomeWire()
  {
  }

  lemma TrimmedListText()
    ensures Trim("h.p.s") == "h.p.s"
  {
  }

  lemma TokenServed()
    ensures ServesToken(SomeEnv(), Name(ISSUER), "u", "h.p.s", ListTokenServed(), KeyId(ISSUER))
  {
    assert "h" + "." + "p" + "." + "s" == "h.p.s" && OneLabel(ISSUER);
    hide Trim, Split, KidDid, KeyId, Name, SomeEnv, SomeWire, Instance.Zeros, DecodeListToken, Header, ListPayload;
    ThreeSegments("h", "p", "s");
    TrimmedListText();
    ListText();
    TokenDecodes();
    HeaderFields(KeyId(ISSUER));
    KeyIdNames(ISSUER);
  }

  /** The status list at `u` is the issuer's, and its first slot is valid. */
  lemma ListServed()
    ensures ListAt(SomeEnv(), Name(ISSUER), "u") == Ok((1, [0]))
  {
    assert OneLabel(ISSUER) && ListTokenServed().payload == ListPayload();
    assert ListTokenServed().signature == Instance.Zeros(64) && ListTokenServed().signingInput == "h.p";
    assert SomeEnv().w == SomeWire();
    hide *;
    TokenServed();
    SignedInputs(ISSUER, KeyId(ISSUER), ListTokenServed().signingInput);
    ListDecodes();
    ListIsSignedByIssuer(SomeEnv(), Name(ISSUER), "u", 1, [0]);
  }

  lemma TokenDecodes()
    requires Split("h.p.s", '.') == ["h", "p", "s"]
    ensures DecodeListToken(SomeWire(), "h.p.s")
         == Ok(ListToken(Header(KeyId(ISSUER)), ListPayload(), Instance.Zeros(64), "h" + "." + "p"))
  {
    hide Split, KeyId, Instance.Zeros, ListPayload;
  }

  lemma ListDecodes()
    ensures ListPayload().Get("status_list").Some?
    ensures ListFromJson(SomeWire(), ListPayload().Get("status_list").value) == Ok((1, [0]))
  {
  }

  function ForeignStatement(): TrustStatement {
    TrustStatement("(unknown)", Name(ISSUER), 0, None, None, map[], None, Some(StatusListPointer("t", 0, "u")),
                   KeyId(OTHER), "ES256", "k" + "." + "q", Instance.Zeros(64))
  }

  lemma OnePart()
    ensures Parts("k.q.s") == ["k.q.s"]
  {
    assert '~' !in "k.q.s" && TrimEndMatches("k.q.s", '~') == "k.q.s";
    hide TrimEndMatches;
    assert Split("k.q.s", '~') == ["k.q.s"];
  }

  lemma NothingDisclosed(sd: set<string>)
    ensures Disclosed(SomeWire(), sd, []) == Ok(NO_CLAIMS)
  {
  }

  function ForeignHead(): Head {
    Head(StatementPayload(), KeyId(OTHER), "ES256", "k" + "." + "q", Instance.Zeros(64))
  }

  lemma HeadAssembles()
    ensures Assemble(ForeignHead(), NO_CLAIMS) == Ok(ForeignStatement())
  {
    hide KeyId, Name, Instance.Zeros, Pointer;
    PointerParses();
    var p := StatementPayload();
    assert p.Get("status") == Some(Obj(map["status_list" := Pointer()]));
  }

  lemma PointerParses()
    ensures PointerFromJson(Pointer()) == Ok(StatusListPointer("t", 0, "u"))
  {
    ParsePrintedPointer(StatusListPointer("t", 0, "u"));
  }

  lemma DecodedInSteps(w: Wire, text: string, head: Head, claims: Claims, stmt: TrustStatement)
    requires Parts(text) == [text] && DecodeHead(w, text) == Ok(head)
    requires Disclosed(w, SdSet(head.payload), []) == Ok(claims) && Assemble(head, claims) == Ok(stmt)
    ensures FromJwt(w, text) == Ok(stmt)
  {
    hide Parts, DecodeHead, Disclosed, Assemble, SdSet;
    assert [text][1..] == [];
  }

  lemma StatementDecodes()
    ensures FromJwt(SomeWire(), "k.q.s") == Ok(ForeignStatement())
  {
    assert "k" + "." + "q" + "." + "s" == "k.q.s" && ForeignHead().payload == StatementPayload();
    hide *;
    OnePart();
    ThreeSegments("k", "q", "s");
    HeadDecodes();
    NothingDisclosed(SdSet(StatementPayload()));
    HeadAssembles();
    DecodedInSteps(SomeWire(), "k.q.s", ForeignHead(), NO_CLAIMS, ForeignStatement());
  }

  lemma HeadDecodes()
    requires Split("k.q.s", '.') == ["k", "q", "s"]
    ensures DecodeHead(SomeWire(), "k.q.s")
         == Ok(ForeignHead())
  {
    hide Split, KeyId, Instance.Zeros, StatementPayload;
  }

  lemma ForeignFields()
    ensures var stmt := ForeignStatement();
      && stmt.iss == Name(ISSUER) && stmt.alg == "ES256" && stmt.kid == KeyId(OTHER) && Current(stmt, 0)
      && stmt.signature == Instance.Zeros(64) && stmt.signingInput == "k.q"
      && stmt.status == Some(StatusListPointer("t", 0, "u"))
  {
  }

  lemma ForeignNotRevoked()
    ensures NotRevoked(SomeEnv(), Name(ISSUER), ForeignStatement())
  {
    hide ForeignStatement, SomeEnv, ListAt, Name;
    ForeignFields();
    ListServed();
  }

  ghost predicate SignedByAnyKey(env: Env, did: string, stmt: TrustStatement) {
    exists kid :: SignedUnder(env, did, kid, stmt.signingInput, stmt.signature)
  }

  lemma NotTheIssuers()
    ensures !SignedByAnyKey(SomeEnv(), Name(ISSUER), ForeignStatement())
  {
    assert OneLabel(ISSUER);
    hide SignedUnder, SomeEnv, Name, ForeignStatement;
    ForeignFields();
    forall kid ensures !SignedUnder(SomeEnv(), Name(ISSUER), kid, "k.q", Instance.Zeros(64)) {
      SignedInputs(ISSUER, kid, "k.q");
    }
  }

  /**
   Input: a statement that names the issuer, signed by the other DID and verified by no key of the
   issuer's document, is reported as trusted.
   */
  lemma ForeignStatementIsTrusted()
    ensures Name(ISSUER) != Name(OTHER)
    ensures var stmt := ForeignStatement();
            SignedUnder(SomeEnv(), Name(OTHER), KeyId(OTHER), stmt.signingInput, stmt.signature)
    ensures !SignedByAnyKey(SomeEnv(), Name(ISSUER), ForeignStatement())
    ensures var r := ReportOn(SomeEnv(), Name(ISSUER), 0, ForeignStatement());
            r.Ok? && r.value.verdict
    ensures !SignedByIssuer(SomeEnv(), Name(ISSUER), ForeignStatement())
  {
    assert OneLabel(OTHER);
    hide *;
    NamesDiffer();
    ForeignFields();
    ForeignNotRevoked();
    KeyIdNames(OTHER);
    SignedInputs(OTHER, KeyId(OTHER), ForeignStatement().signingInput);
    NotTheIssuers();
    OtherSignerIsTrusted(SomeEnv(), Name(ISSUER), Name(OTHER), 0, ForeignStatement());
  }

  function ForeignRequest(): Request {
    Request(Some("r"), Some(Name(ISSUER)), Ok("d"), (_, _) => Ok(["k.q.s"]), 0)
  }

  /** And so is the entity it is about, although its only token is signed by no key of the issuer. */
  lemma ForeignOutcomeIsTrusted()
    ensures FromJwt(SomeEnv().w, "k.q.s").Ok?
    ensures !SignedByAnyKey(SomeEnv(), Name(ISSUER), FromJwt(SomeEnv().w, "k.q.s").value)
    ensures VerifyAll(SomeEnv(), ForeignRequest()).Ok?
    ensures VerifyAll(SomeEnv(), ForeignRequest()).value.outcome == Trusted
    ensures !IssuersToken(SomeEnv(), Name(ISSUER), 0, "k.q.s")
  {
    OneTokenDecodes();
    hide SomeEnv, Name, FromJwt, ReportOn, Trustworthy, SignedByIssuer, ForeignStatement, NewestFirst, DecodeAll,
         ReportsOn, SignedByAnyKey;
    assert SomeEnv().w == SomeWire() by {
      ListText();
    }
    StatementDecodes();
    ForeignStatementIsTrusted();
    OneReport(SomeEnv(), Name(ISSUER), 0, ForeignStatement());
    var r := ReportOn(SomeEnv(), Name(ISSUER), 0, ForeignStatement()).value;
    assert r in [r];
  }

  lemma OneTokenDecodes()
    ensures DecodeAll(SomeWire(), ["k.q.s"]) == Ok([ForeignStatement()])
    ensures NewestFirst([ForeignStatement()]) == [ForeignStatement()]
  {
    hide FromJwt, SomeWire, ForeignStatement;
    StatementDecodes();
    assert ["k.q.s"][..0] == [] && [ForeignStatement()][..0] == [] && [] + [ForeignStatement()] == [ForeignStatement()];
    assert DecodeAll(SomeWire(), []) == Ok([]);
    assert NewestFirst([]) == [];
  }

  lemma OneReport(env: Env, expected: string, now: u64, stmt: TrustStatement)
    requires ReportOn(env, expected, now, stmt).Ok?
    ensures ReportsOn(env, expected, now, [stmt]) == Ok([ReportOn(env, expected, now, stmt).value])
  {
    hide ReportOn;
    var report := ReportOn(env, expected, now, stmt).value;
    assert [stmt][..0] == [] && [] + [report] == [report];
    assert ReportsOn(env, expected, now, []) == Ok([]);
  }
}
