/**
 `trust verify` (swiyu-didtool/src/cmd/trust/verify.rs): every statement about a DID is checked
 against the expected issuer, its signature, its validity window and its status list.

 The command shares two growing caches between the statements.  The functions of the first half
 check one statement with no cache at all; the class of the second half is the cached code, and
 is proved to give the same reports, the same outcome and the same errors while it resolves each
 issuer and each status list at most once.  The network is a fixed function from URL to answer.
 */
module TrustVerify {
  import opened Basics
  import opened Text
  import opened Json
  import opened Wire
  import opened PublicKeys
  import opened TrustStatements
  import opened StatusLists
  import Crypto
  import Did
  import DidUrl
  import DidDoc
  import LogEntry
  import Jsonl

  datatype FetchOutcome = Found(text: string) | NotFound

  datatype FetchError = FetchError(url: string, reason: string)

  /** The libraries, the network and the trust registry. */
  datatype Env = Env(
    c: Crypto.Crypto,
    w: Wire,
    t: Jsonl.JsonText,
    fetch: string -> Result<FetchOutcome, FetchError>,
    // P-256 public key of an EC JWK; verification of a 64-byte ES256 signature
    p256Key: PublicKeyJwk -> Option<Bytes>,
    p256Verify: (Bytes, string, Bytes) -> bool)

  datatype ResolutionReason =
    | BadDid(error: Did.DidError)
    | LogNotFound(url: string)
    | BadLog(log: LogEntry.LogError)
    | EmptyLog
    | PatchState

  datatype KeyReason = NoMethod(kid: string) | NotJwk | MalformedJwk | NotEs256(alg: string)

  datatype ListReason =
    | ListNotFound
    | Segments(got: nat)
    | NotBase64Segment(segment: string)
    | NotJsonSegment(segment: string)
    | ListAlg(alg: string)
    | MissingKid
    | KidWithoutFragment(kid: string)
    | KidOfOther(did: string)
    | KeyResolution(reason: KeyReason)
    | MissingStatusListMember

  datatype TrustError =
    | TrustRegistryUrlMissing
    | TrustIssuerMissing
    | BadStatement(n: nat, source: StatementError)
    | IssuerResolution(iss: string, resolution: ResolutionReason)
    | StatusListMalformed(url: string, malformed: ListReason)
    | StatusListSignatureInvalid
    | BadStatusList(list: StatusListError)
    | Fetch(fetch: FetchError)
    | BadDidDoc(doc: DocError)
    | Registry(msg: string)
    | Resolve(msg: string)

  datatype Note =
    | IssuerMatches
    | IssuerDiffers(iss: string)
    | IssuerMismatch
    | UnsupportedAlg(alg: string)
    | NoFragment(kid: string)
    | NoKey(reason: KeyReason)
    | SignedBy(kid: string)
    | NotASignature
    | SignatureMismatch
    | NotYetValid(nbf: u64)
    | Expired(exp: u64)
    | WithinWindow(from: Option<u64>, until: Option<u64>)
    | NoStatusClaim
    | Slot(value: StatusValue, idx: u64, bits: u8)
    | SignatureNotTrusted

  datatype Check = Passed(note: Note) | Failed(note: Note) | Skipped(note: Note)

  datatype Report = Report(
    statement: TrustStatement, issuer: Check, signature: Check, freshness: Check, status: Check, verdict: bool)

  datatype VerifyOutcome = Trusted | Untrusted

  // --- keys ---

  datatype VerifyingKey = Ed25519(key: Bytes) | EcdsaP256(key: Bytes)

  /** `VerifyingKey::try_from`. */
  function KeyOfJwk(env: Env, jwk: PublicKeyJwk): Result<VerifyingKey, KeyReason> {
    if jwk.OKP? && jwk.crv == "Ed25519" then
      match env.w.decode64(jwk.x)
      case None => Err(MalformedJwk)
      case Some(x) => if |x| == 32 && env.c.edValid(x) then Ok(Ed25519(x)) else Err(MalformedJwk)
    else if jwk.EC? && jwk.crv == "P-256" then
      match env.p256Key(jwk)
      case None => Err(MalformedJwk)
      case Some(key) => Ok(EcdsaP256(key))
    else Err(MalformedJwk)
  }

  function FindMethod(methods: seq<DidDoc.VerificationMethod>, kid: string): Option<DidDoc.VerificationMethod> {
    if methods == [] then None
    else if methods[0].id == kid then Some(methods[0])
    else FindMethod(methods[1..], kid)
  }

  /** The P-256 key that a document lists under a key id. */
  function FindVerifyingKey(env: Env, doc: DidDoc.DidDoc, kid: string): Result<Bytes, KeyReason> {
    match FindMethod(doc.verificationMethod, kid)
    case None => Err(NoMethod(kid))
    case Some(vm) =>
      if vm.publicKey.Multibase? then Err(NotJwk)
      else
        var key :- KeyOfJwk(env, vm.publicKey.jwk);
        if key.EcdsaP256? then Ok(key.key) else Err(NotEs256("EdDSA"))
  }

  predicate SignatureHolds(env: Env, key: Bytes, input: string, signature: Bytes) {
    |signature| == 64 && env.p256Verify(key, input, signature)
  }

  // --- the checks without caches ---

  /** The DID document at the end of an issuer's log. */
  function IssuerDoc(env: Env, iss: string): Result<DidDoc.DidDoc, TrustError> {
    match Did.FromStr(iss)
    case Err(e) => Err(IssuerResolution(iss, BadDid(e)))
    case Ok(did) => DocOfAnswer(env, iss, DidUrl.LogUrl(did), env.fetch(DidUrl.LogUrl(did)))
  }

  function DocOfAnswer(env: Env, iss: string, url: string, answer: Result<FetchOutcome, FetchError>)
    : Result<DidDoc.DidDoc, TrustError>
  {
    match answer
    case Err(e) => Err(Fetch(e))
    case Ok(NotFound) => Err(IssuerResolution(iss, LogNotFound(url)))
    case Ok(Found(text)) =>
      match Jsonl.FromJsonl(env.t, text)
      case Err(e) => Err(IssuerResolution(iss, BadLog(e)))
      case Ok(entries) =>
        if entries == [] then Err(IssuerResolution(iss, EmptyLog))
        else
          match entries[|entries| - 1].state
          case Patch(_) => Err(IssuerResolution(iss, PatchState))
          case Value(v) =>
            match DidDoc.DocFromJson(env.c, v)
            case Err(e) => Err(BadDidDoc(e))
            case Ok(doc) => Ok(doc)
  }

  function KidDid(kid: string): Option<string> {
    match SplitOnce(kid, '#')
    case None => None
    case Some((did, _)) => Some(did)
  }

  function IssuerCheck(expected: string, stmt: TrustStatement): Check {
    if stmt.iss == expected then Passed(IssuerMatches) else Failed(IssuerDiffers(stmt.iss))
  }

  function SignatureCheck(env: Env, stmt: TrustStatement): Result<Check, TrustError> {
    if stmt.alg != "ES256" then Ok(Failed(UnsupportedAlg(stmt.alg)))
    else if KidDid(stmt.kid).None? then Ok(Failed(NoFragment(stmt.kid)))
    else
      var doc :- IssuerDoc(env, KidDid(stmt.kid).value);
      Ok(SignatureUnder(env, doc, stmt))
  }

  function SignatureUnder(env: Env, doc: DidDoc.DidDoc, stmt: TrustStatement): Check {
    match FindVerifyingKey(env, doc, stmt.kid)
    case Err(reason) => Failed(NoKey(reason))
    case Ok(key) =>
      if |stmt.signature| != 64 then Failed(NotASignature)
      else if env.p256Verify(key, stmt.signingInput, stmt.signature) then Passed(SignedBy(stmt.kid))
      else Failed(SignatureMismatch)
  }

  function CheckFreshness(stmt: TrustStatement, now: u64): Check {
    if stmt.nbf.Some? && now < stmt.nbf.value then Failed(NotYetValid(stmt.nbf.value))
    else if stmt.exp.Some? && now >= stmt.exp.value then Failed(Expired(stmt.exp.value))
    else Passed(WithinWindow(stmt.nbf, stmt.exp))
  }

  /** The three segments of a status list token, decoded. */
  datatype ListToken = ListToken(header: Json, payload: Json, signature: Bytes, signingInput: string)

  function InList(segment: string, r: Result<Json, SegmentFault>): Result<Json, ListReason> {
    match r
    case Err(NoBase64) => Err(NotBase64Segment(segment))
    case Err(NoJson) => Err(NotJsonSegment(segment))
    case Ok(v) => Ok(v)
  }

  function DecodeListToken(w: Wire, jwt: string): Result<ListToken, ListReason> {
    var segs := Split(jwt, '.');
    if |segs| != 3 then Err(Segments(|segs|))
    else
      var header :- InList("header", DecodeJson(w, segs[0]));
      var payload :- InList("payload", DecodeJson(w, segs[1]));
      match w.decode64(segs[2])
      case None => Err(NotBase64Segment("signature"))
      case Some(signature) => Ok(ListToken(header, payload, signature, segs[0] + "." + segs[1]))
  }

  /** The key id of a list token, which must be one of the expected issuer's. */
  function ListKid(header: Json, expected: string): Result<string, ListReason> {
    var alg := StringOr(header.GetStr("alg"), "(missing)");
    if alg != "ES256" then Err(ListAlg(alg))
    else
      match header.GetStr("kid")
      case None => Err(MissingKid)
      case Some(kid) =>
        match KidDid(kid)
        case None => Err(KidWithoutFragment(kid))
        case Some(did) => if did != expected then Err(KidOfOther(did)) else Ok(kid)
  }

  function Malformed<T>(url: string, r: Result<T, ListReason>): Result<T, TrustError> {
    match r
    case Ok(v) => Ok(v)
    case Err(reason) => Err(StatusListMalformed(url, reason))
  }

  /** Signature, then content, of a decoded list token. */
  function ListUnder(env: Env, url: string, token: ListToken, doc: DidDoc.DidDoc, kid: string)
    : (r: Result<(u8, Bytes), TrustError>)
    ensures r.Ok? ==> Width(r.value.0)
  {
    match FindVerifyingKey(env, doc, kid)
    case Err(reason) => Err(StatusListMalformed(url, KeyResolution(reason)))
    case Ok(key) =>
      if !SignatureHolds(env, key, token.signingInput, token.signature) then Err(StatusListSignatureInvalid)
      else
        match token.payload.Get("status_list")
        case None => Err(StatusListMalformed(url, MissingStatusListMember))
        case Some(inner) =>
          match ListFromJson(env.w, inner)
          case Err(e) => Err(BadStatusList(e))
          case Ok(list) => Ok(list)
  }

  function ParseAndVerify(env: Env, expected: string, url: string, jwt: string): (r: Result<(u8, Bytes), TrustError>)
    ensures r.Ok? ==> Width(r.value.0)
  {
    var token :- Malformed(url, DecodeListToken(env.w, jwt));
    var kid :- Malformed(url, ListKid(token.header, expected));
    var doc :- IssuerDoc(env, expected);
    ListUnder(env, url, token, doc, kid)
  }

  /** The width and bytes of the status list served at a URL. */
  function ListAt(env: Env, expected: string, url: string): (r: Result<(u8, Bytes), TrustError>)
    ensures r.Ok? ==> Width(r.value.0)
  {
    match env.fetch(url)
    case Err(e) => Err(Fetch(e))
    case Ok(NotFound) => Err(StatusListMalformed(url, ListNotFound))
    case Ok(Found(text)) => ParseAndVerify(env, expected, url, Trim(text))
  }

  function ValueIn(bits: u8, bytes: Bytes, idx: u64): Result<StatusValue, StatusListError>
    requires Width(bits)
  {
    var slots := SlotsOf(bytes, bits);
    if idx < |slots| then Ok(StatusValue.FromRaw(slots[idx], bits)) else Err(IdxOutOfRange(idx, |slots|))
  }

  function StatusCheck(env: Env, expected: string, stmt: TrustStatement): Result<Check, TrustError> {
    match stmt.status
    case None => Ok(Failed(NoStatusClaim))
    case Some(pointer) =>
      var list :- ListAt(env, expected, pointer.uri);
      match ValueIn(list.0, list.1, pointer.idx)
      case Err(e) => Err(BadStatusList(e))
      case Ok(value) => Ok(SlotCheck(value, pointer.idx, list.0))
  }

  function SlotCheck(value: StatusValue, idx: u64, bits: u8): Check {
    if value.Valid? then Passed(Slot(value, idx, bits)) else Failed(Slot(value, idx, bits))
  }

  /** One statement, checked from nothing. */
  function ReportOn(env: Env, expected: string, now: u64, stmt: TrustStatement): Result<Report, TrustError> {
    var issuer := IssuerCheck(expected, stmt);
    var signature :- if issuer.Passed? then SignatureCheck(env, stmt) else Ok(Skipped(IssuerMismatch));
    var freshness := CheckFreshness(stmt, now);
    var status :- if signature.Passed? then StatusCheck(env, expected, stmt) else Ok(Skipped(SignatureNotTrusted));
    Ok(Report(stmt, issuer, signature, freshness, status,
              issuer.Passed? && signature.Passed? && freshness.Passed? && status.Passed?))
  }

  /** Every statement on its own; the first error is the command's. */
  function ReportsOn(env: Env, expected: string, now: u64, stmts: seq<TrustStatement>)
    : Result<seq<Report>, TrustError>
  {
    if stmts == [] then Ok([])
    else
      var front :- ReportsOn(env, expected, now, stmts[..|stmts| - 1]);
      var last :- ReportOn(env, expected, now, stmts[|stmts| - 1]);
      Ok(front + [last])
  }

  // --- what the checks mean ---

  /** A signature under the key that a DID's own document lists for a key id. */
  predicate SignedUnder(env: Env, did: string, kid: string, input: string, signature: Bytes) {
    var doc := IssuerDoc(env, did);
    && doc.Ok?
    && FindVerifyingKey(env, doc.value, kid).Ok?
    && SignatureHolds(env, FindVerifyingKey(env, doc.value, kid).value, input, signature)
  }

  /** The answer of a URL, read as a token of the expected issuer under one of its key ids. */
  predicate ServesToken(env: Env, expected: string, url: string, text: string, token: ListToken, kid: string) {
    && env.fetch(url) == Ok(Found(text))
    && DecodeListToken(env.w, Trim(text)) == Ok(token)
    && token.header.GetStr("alg") == Some("ES256")
    && token.header.GetStr("kid") == Some(kid)
    && KidDid(kid) == Some(expected)
  }

  /** A list is accepted exactly when the expected issuer signed the token that carries it. */
  lemma ListIsSignedByIssuer(env: Env, expected: string, url: string, bits: u8, bytes: Bytes)
    ensures ListAt(env, expected, url) == Ok((bits, bytes)) <==>
            exists text, token, kid :: ServesToken(env, expected, url, text, token, kid)
              && SignedUnder(env, expected, kid, token.signingInput, token.signature)
              && token.payload.Get("status_list").Some?
              && ListFromJson(env.w, token.payload.Get("status_list").value) == Ok((bits, bytes))
  {
    hide IssuerDoc, FindVerifyingKey, DecodeListToken, ListFromJson, KidDid, Trim;
    if ListAt(env, expected, url).Ok? {
      var text := env.fetch(url).value.text;
      var token := DecodeListToken(env.w, Trim(text)).value;
      var kid := ListKid(token.header, expected).value;
      assert ServesToken(env, expected, url, text, token, kid);
    }
  }

  predicate Current(stmt: TrustStatement, now: u64) {
    && (stmt.nbf.Some? ==> stmt.nbf.value <= now)
    && (stmt.exp.Some? ==> now < stmt.exp.value)
  }

  /** The slot a statement points at reads `Valid` in the issuer's list. */
  predicate NotRevoked(env: Env, expected: string, stmt: TrustStatement) {
    && stmt.status.Some?
    && var list := ListAt(env, expected, stmt.status.value.uri);
    && list.Ok?
    && stmt.status.value.idx < SlotCount(list.value.1, list.value.0)
    && SlotAt(list.value.1, list.value.0, stmt.status.value.idx) == 0
  }

  predicate Trustworthy(env: Env, expected: string, now: u64, stmt: TrustStatement) {
    && stmt.iss == expected
    && stmt.alg == "ES256"
    && KidDid(stmt.kid).Some?
    && SignedUnder(env, KidDid(stmt.kid).value, stmt.kid, stmt.signingInput, stmt.signature)
    && Current(stmt, now)
    && NotRevoked(env, expected, stmt)
  }

  /** The verdict is positive exactly for trustworthy statements, and those never meet an error. */
  lemma VerdictIsExact(env: Env, expected: string, now: u64, stmt: TrustStatement)
    ensures Trustworthy(env, expected, now, stmt) <==>
            ReportOn(env, expected, now, stmt).Ok? && ReportOn(env, expected, now, stmt).value.verdict
  {
    hide IssuerDoc, FindVerifyingKey, ListAt, KidDid, SlotAt;
  }

  // --- the command on values ---

  function Insert(stmts: seq<TrustStatement>, s: TrustStatement): seq<TrustStatement> {
    if stmts == [] then [s]
    else if stmts[0].iat < s.iat then [s] + stmts
    else [stmts[0]] + Insert(stmts[1..], s)
  }

  /** `sort_by_key(|d| Reverse(d.iat))`, a stable sort. */
  function NewestFirst(stmts: seq<TrustStatement>): seq<TrustStatement> {
    if stmts == [] then [] else Insert(NewestFirst(stmts[..|stmts| - 1]), stmts[|stmts| - 1])
  }

  predicate Descending(stmts: seq<TrustStatement>) {
    forall i, j | 0 <= i < j < |stmts| :: stmts[i].iat >= stmts[j].iat
  }

  function OnlyIf(s: TrustStatement, iat: u64): seq<TrustStatement> {
    if s.iat == iat then [s] else []
  }

  /** The statements issued at one moment, in order. */
  function IssuedAt(stmts: seq<TrustStatement>, iat: u64): seq<TrustStatement> {
    if stmts == [] then [] else OnlyIf(stmts[0], iat) + IssuedAt(stmts[1..], iat)
  }

  lemma {:induction false} InsertAdds(stmts: seq<TrustStatement>, s: TrustStatement)
    ensures multiset(Insert(stmts, s)) == multiset(stmts) + multiset{s}
    ensures forall x :: x in Insert(stmts, s) <==> x == s || x in stmts
  {
    if stmts == [] {
    } else {
      assert stmts == [stmts[0]] + stmts[1..];
      InsertAdds(stmts[1..], s);
    }
  }

  lemma DescendingCons(first: TrustStatement, rest: seq<TrustStatement>)
    requires Descending(rest) && forall x | x in rest :: x.iat <= first.iat
    ensures Descending([first] + rest)
  {
  }

  lemma {:induction false} InsertSorts(stmts: seq<TrustStatement>, s: TrustStatement)
    requires Descending(stmts)
    ensures Descending(Insert(stmts, s))
  {
    if stmts == [] {
    } else if stmts[0].iat < s.iat {
      forall x | x in stmts ensures x.iat <= s.iat {
      }
      DescendingCons(s, stmts);
    } else {
      InsertSorts(stmts[1..], s);
      InsertAdds(stmts[1..], s);
      DescendingCons(stmts[0], Insert(stmts[1..], s));
    }
  }

  lemma {:induction false} InsertIsStable(stmts: seq<TrustStatement>, s: TrustStatement, iat: u64)
    requires Descending(stmts)
    ensures IssuedAt(Insert(stmts, s), iat) == IssuedAt(stmts, iat) + OnlyIf(s, iat)
  {
    if stmts == [] {
      assert [s][1..] == [] && OnlyIf(s, iat) + [] == OnlyIf(s, iat) == [] + OnlyIf(s, iat);
    } else if stmts[0].iat < s.iat {
      assert ([s] + stmts)[1..] == stmts;
      if s.iat == iat {
        NoneIssuedAt(stmts, iat);
      }
    } else {
      InsertIsStable(stmts[1..], s, iat);
      assert Insert(stmts, s)[1..] == Insert(stmts[1..], s);
    }
  }

  lemma {:induction false} NoneIssuedAt(stmts: seq<TrustStatement>, iat: u64)
    requires forall s | s in stmts :: s.iat != iat
    ensures IssuedAt(stmts, iat) == []
  {
    if stmts == [] {
    } else {
      NoneIssuedAt(stmts[1..], iat);
    }
  }

  /** Newest first, nothing lost or added, and statements of one moment keep their order. */
  lemma {:induction false} NewestFirstIsStableSort(stmts: seq<TrustStatement>, iat: u64)
    ensures Descending(NewestFirst(stmts))
    ensures multiset(NewestFirst(stmts)) == multiset(stmts)
    ensures IssuedAt(NewestFirst(stmts), iat) == IssuedAt(stmts, iat)
  {
    if stmts == [] {
    } else {
      var front, last := stmts[..|stmts| - 1], stmts[|stmts| - 1];
      assert stmts == front + [last];
      NewestFirstIsStableSort(front, iat);
      InsertAdds(NewestFirst(front), last);
      InsertSorts(NewestFirst(front), last);
      InsertIsStable(NewestFirst(front), last, iat);
      IssuedAtAppend(front, last, iat);
    }
  }

  lemma {:induction false} IssuedAtAppend(stmts: seq<TrustStatement>, s: TrustStatement, iat: u64)
    ensures IssuedAt(stmts + [s], iat) == IssuedAt(stmts, iat) + OnlyIf(s, iat)
  {
    hide OnlyIf;
    if stmts == [] {
      assert [] + [s] == [s] && [s][1..] == [];
      assert OnlyIf(s, iat) + [] == OnlyIf(s, iat) == [] + OnlyIf(s, iat);
    } else {
      var rest := stmts[1..];
      assert (stmts + [s])[1..] == rest + [s];
      IssuedAtAppend(rest, s, iat);
      assert OnlyIf(stmts[0], iat) + (IssuedAt(rest, iat) + OnlyIf(s, iat))
          == (OnlyIf(stmts[0], iat) + IssuedAt(rest, iat)) + OnlyIf(s, iat);
    }
  }

  /** Decodes every statement; an error carries the 1-based position of the first bad one. */
  function DecodeAll(w: Wire, tokens: seq<string>): Result<seq<TrustStatement>, TrustError> {
    if tokens == [] then Ok([])
    else
      var front :- DecodeAll(w, tokens[..|tokens| - 1]);
      match FromJwt(w, tokens[|tokens| - 1])
      case Err(e) => Err(BadStatement(|tokens|, e))
      case Ok(stmt) => Ok(front + [stmt])
  }

  /** What the command was given: options, the resolved DID, and the registry's answer for it. */
  datatype Request = Request(
    registryUrl: Option<string>,
    trustIssuer: Option<string>,
    did: Result<string, TrustError>,
    statements: (string, string) -> Result<seq<string>, TrustError>,
    now: u64)

  datatype Answer = Answer(outcome: VerifyOutcome, reports: seq<Report>)

  predicate AnyTrusted(reports: seq<Report>) {
    exists r :: r in reports && r.verdict
  }

  function VerifyAll(env: Env, req: Request): Result<Answer, TrustError> {
    if req.registryUrl.None? then Err(TrustRegistryUrlMissing)
    else if req.trustIssuer.None? then Err(TrustIssuerMissing)
    else
      var did :- req.did;
      var tokens :- req.statements(req.registryUrl.value, did);
      if tokens == [] then Ok(Answer(Untrusted, []))
      else
        var decoded :- DecodeAll(env.w, tokens);
        var reports :- ReportsOn(env, req.trustIssuer.value, req.now, NewestFirst(decoded));
        Ok(Answer(if AnyTrusted(reports) then Trusted else Untrusted, reports))
  }

  lemma {:induction false} ReportsFollowStatements(env: Env, expected: string, now: u64, stmts: seq<TrustStatement>)
    requires ReportsOn(env, expected, now, stmts).Ok?
    ensures var reports := ReportsOn(env, expected, now, stmts).value;
            |reports| == |stmts| && forall i | 0 <= i < |stmts| ::
                ReportOn(env, expected, now, stmts[i]) == Ok(reports[i])
  {
    hide ReportOn;
    if stmts == [] {
    } else {
      ReportsFollowStatements(env, expected, now, stmts[..|stmts| - 1]);
    }
  }

  lemma {:induction false} DecodedInOrder(w: Wire, tokens: seq<string>)
    requires DecodeAll(w, tokens).Ok?
    ensures var stmts := DecodeAll(w, tokens).value;
            |stmts| == |tokens| && forall i | 0 <= i < |tokens| :: FromJwt(w, tokens[i]) == Ok(stmts[i])
  {
    hide FromJwt;
    if tokens == [] {
    } else {
      DecodedInOrder(w, tokens[..|tokens| - 1]);
    }
  }

  predicate TrustworthyToken(env: Env, expected: string, now: u64, text: string) {
    FromJwt(env.w, text).Ok? && Trustworthy(env, expected, now, FromJwt(env.w, text).value)
  }

  /** Sorting moves the reports, so a report's statement is found again among the tokens. */
  lemma TokenOfReport(env: Env, expected: string, now: u64, tokens: seq<string>, stmts: seq<TrustStatement>,
                      s: TrustStatement)
    requires DecodeAll(env.w, tokens) == Ok(stmts)
    ensures s in NewestFirst(stmts) <==> exists text :: text in tokens && FromJwt(env.w, text) == Ok(s)
  {
    hide FromJwt, NewestFirst;
    DecodedInOrder(env.w, tokens);
    NewestFirstIsStableSort(stmts, 0);
    assert s in NewestFirst(stmts) <==> s in multiset(NewestFirst(stmts));
    assert s in stmts <==> s in multiset(stmts);
    if s in stmts {
      var k :| 0 <= k < |stmts| && stmts[k] == s;
      assert tokens[k] in tokens;
    }
  }

  /** An entity is reported trusted exactly when one of its tokens decodes to a trustworthy statement. */
  lemma OutcomeIsExact(env: Env, req: Request, tokens: seq<string>)
    requires req.registryUrl.Some? && req.trustIssuer.Some? && req.did.Ok?
    requires req.statements(req.registryUrl.value, req.did.value) == Ok(tokens)
    requires VerifyAll(env, req).Ok?
    ensures VerifyAll(env, req).value.outcome == Trusted <==>
            exists text :: text in tokens && TrustworthyToken(env, req.trustIssuer.value, req.now, text)
  {
    hide FromJwt, Trustworthy, ReportOn, NewestFirst;
    var expected, now := req.trustIssuer.value, req.now;
    if tokens != [] {
      var stmts := DecodeAll(env.w, tokens).value;
      var sorted := NewestFirst(stmts);
      var reports := VerifyAll(env, req).value.reports;
      ReportsFollowStatements(env, expected, now, sorted);
      forall i | 0 <= i < |sorted|
        ensures reports[i].verdict <==> Trustworthy(env, expected, now, sorted[i])
        ensures exists text :: text in tokens && FromJwt(env.w, text) == Ok(sorted[i])
      {
        VerdictIsExact(env, expected, now, sorted[i]);
        TokenOfReport(env, expected, now, tokens, stmts, sorted[i]);
      }
      forall text | text in tokens && TrustworthyToken(env, expected, now, text) ensures AnyTrusted(reports) {
        var s := FromJwt(env.w, text).value;
        TokenOfReport(env, expected, now, tokens, stmts, s);
        var i :| 0 <= i < |sorted| && sorted[i] == s;
        assert reports[i] in reports;
      }
    }
  }

  // --- the command with its caches ---

  /** The network.  Every request goes through `Fetch` and is recorded. */
  class Network {
    const answers: string -> Result<FetchOutcome, FetchError>
    ghost var asked: seq<string>

    constructor (answers: string -> Result<FetchOutcome, FetchError>)
      ensures this.answers == answers && asked == []
    {
      this.answers := answers;
      asked := [];
    }

    method Fetch(url: string) returns (r: Result<FetchOutcome, FetchError>)
      modifies this
      ensures r == answers(url)
      ensures asked == old(asked) + [url]
    {
      r := answers(url);
      asked := asked + [url];
    }
  }

  /** What a request is for. */
  datatype Purpose = ForIssuer(iss: string) | ForList(url: string)

  function UrlOf(p: Purpose): string {
    match p
    case ForIssuer(iss) => (match Did.FromStr(iss) case Ok(did) => DidUrl.LogUrl(did) case Err(_) => "")
    case ForList(url) => url
  }

  function UrlsOf(purposes: seq<Purpose>): (urls: seq<string>)
    ensures |urls| == |purposes| && forall i | 0 <= i < |urls| :: urls[i] == UrlOf(purposes[i])
  {
    seq(|purposes|, i requires 0 <= i < |purposes| => UrlOf(purposes[i]))
  }

  predicate NoRepeat(purposes: seq<Purpose>) {
    forall i, j | 0 <= i < j < |purposes| :: purposes[i] != purposes[j]
  }

  /** What a statement that names the expected issuer can make the command ask for. */
  predicate Named(expected: string, stmt: TrustStatement, p: Purpose) {
    && stmt.iss == expected
    && match p
       case ForIssuer(iss) => iss == expected || KidDid(stmt.kid) == Some(iss)
       case ForList(url) => stmt.status.Some? && stmt.status.value.uri == url
  }

  predicate NamedByToken(w: Wire, expected: string, text: string, p: Purpose) {
    FromJwt(w, text).Ok? && Named(expected, FromJwt(w, text).value, p)
  }

  /** What a statement adds to the issuer itself: the DID of its key id and its status list. */
  function Own(stmt: TrustStatement): (r: set<Purpose>)
    ensures |r| <= 2
  {
    (if KidDid(stmt.kid).Some? then {ForIssuer(KidDid(stmt.kid).value)} else {})
    + (if stmt.status.Some? then {ForList(stmt.status.value.uri)} else {})
  }

  function AllOwn(stmts: seq<TrustStatement>): (r: set<Purpose>)
    ensures |r| <= 2 * |stmts|
    ensures forall s | s in stmts :: Own(s) <= r
  {
    if stmts == [] then {}
    else
      assert stmts == [stmts[0]] + stmts[1..];
      Own(stmts[0]) + AllOwn(stmts[1..])
  }

  lemma {:induction false} DistinctInSet(purposes: seq<Purpose>, all: set<Purpose>)
    requires NoRepeat(purposes) && forall p | p in purposes :: p in all
    ensures |purposes| <= |all|
  {
    if purposes == [] {
    } else {
      var last := purposes[|purposes| - 1];
      DistinctInSet(purposes[..|purposes| - 1], all - {last});
    }
  }

  /** Distinct purposes that statements name are at most two for each, and one for the issuer. */
  lemma RequestBound(expected: string, stmts: seq<TrustStatement>, purposes: seq<Purpose>)
    requires NoRepeat(purposes) && forall p | p in purposes :: exists s :: s in stmts && Named(expected, s, p)
    ensures |purposes| <= 1 + 2 * |stmts|
  {
    hide KidDid;
    var all := {ForIssuer(expected)} + AllOwn(stmts);
    forall p | p in purposes ensures p in all {
      var s :| s in stmts && Named(expected, s, p);
      assert p == ForIssuer(expected) || p in Own(s);
    }
    DistinctInSet(purposes, all);
  }

  class VerifyContext {
    const expectedIssuer: string
    const net: Network
    var issuerDocs: map<string, DidDoc.DidDoc>
    var statusLists: map<string, StatusList>
    // What was asked of the network so far, in order, failed requests included.
    ghost const askedBefore: seq<string>
    ghost var purposes: seq<Purpose>

    constructor (expected: string, network: Network)
      ensures expectedIssuer == expected && net == network
      ensures issuerDocs == map[] && statusLists == map[] && purposes == [] && askedBefore == network.asked
    {
      expectedIssuer := expected;
      net := network;
      issuerDocs := map[];
      statusLists := map[];
      askedBefore := network.asked;
      purposes := [];
    }

    ghost function Arrays(): set<object>
      reads this
    {
      set url | url in statusLists :: statusLists[url].bytes
    }

    /** The network was asked once for each purpose, and for nothing else. */
    ghost predicate FetchedOnce()
      reads this`purposes, net
    {
      NoRepeat(purposes) && net.asked == askedBefore + UrlsOf(purposes)
    }

    ghost predicate DocsAgree(env: Env)
      reads this`purposes, this`issuerDocs
    {
      && net.answers == env.fetch
      && (forall iss :: ForIssuer(iss) in purposes <==> iss in issuerDocs)
      && (forall iss | iss in issuerDocs :: IssuerDoc(env, iss) == Ok(issuerDocs[iss]))
    }

    ghost predicate ListsAgree(env: Env)
      reads this, Arrays()
    {
      && (forall url :: ForList(url) in purposes <==> url in statusLists)
      && (forall url | url in statusLists ::
            statusLists[url].Valid()
            && ListAt(env, expectedIssuer, url) == Ok((statusLists[url].bits, statusLists[url].bytes[..])))
    }

    /** The caches hold what uncached resolution gives, for exactly the keys fetched so far. */
    ghost predicate Valid(env: Env)
      reads this, net, Arrays()
    {
      FetchedOnce() && DocsAgree(env) && ListsAgree(env)
    }

    /** A purpose that is new is added to the record together with its request. */
    method Ask(env: Env, p: Purpose, url: string) returns (r: Result<FetchOutcome, FetchError>)
      requires FetchedOnce() && p !in purposes && url == UrlOf(p)
      modifies this`purposes, net
      ensures r == net.answers(url)
      ensures FetchedOnce() && purposes == old(purposes) + [p]
      ensures p.ForList? && old(DocsAgree(env)) ==> DocsAgree(env)
    {
      hide UrlOf;
      r := net.Fetch(url);
      purposes := purposes + [p];
      assert UrlsOf(purposes) == UrlsOf(old(purposes)) + [url];
    }

    method LoadIssuerDoc(env: Env, iss: string) returns (r: Result<DidDoc.DidDoc, TrustError>)
      requires FetchedOnce() && DocsAgree(env)
      modifies this`issuerDocs, this`purposes, net
      ensures r == IssuerDoc(env, iss)
      ensures FetchedOnce() && (r.Ok? ==> DocsAgree(env))
      ensures purposes == old(purposes) || purposes == old(purposes) + [ForIssuer(iss)]
      ensures iss in old(issuerDocs) ==> purposes == old(purposes)
    {
      hide DocOfAnswer, Did.FromStr, DidUrl.LogUrl;
      if iss !in issuerDocs {
        var parsed := Did.FromStr(iss);
        if parsed.Err? {
          return Err(IssuerResolution(iss, BadDid(parsed.error)));
        }
        var url := DidUrl.LogUrl(parsed.value);
        var answer := Ask(env, ForIssuer(iss), url);
        var doc :- DocOfAnswer(env, iss, url, answer);
        issuerDocs := issuerDocs[iss := doc];
      }
      return Ok(issuerDocs[iss]);
    }

    method ParseAndVerifyStatusList(env: Env, url: string, jwt: string) returns (r: Result<StatusList, TrustError>)
      requires FetchedOnce() && DocsAgree(env)
      modifies this`issuerDocs, this`purposes, net
      ensures var spec := ParseAndVerify(env, expectedIssuer, url, jwt);
              if spec.Err? then r == Err(spec.error)
              else r.Ok? && fresh(r.value) && fresh(r.value.bytes) && r.value.Valid()
                   && (r.value.bits, r.value.bytes[..]) == spec.value
      ensures FetchedOnce() && (r.Ok? ==> DocsAgree(env))
      ensures forall u :: ForList(u) in purposes <==> ForList(u) in old(purposes)
      ensures forall p | p in purposes :: p in old(purposes) || p == ForIssuer(expectedIssuer)
    {
      hide IssuerDoc, FindVerifyingKey, DecodeListToken, ListFromJson, KidDid;
      var token :- Malformed(url, DecodeListToken(env.w, jwt));
      var kid :- Malformed(url, ListKid(token.header, expectedIssuer));
      var doc :- LoadIssuerDoc(env, expectedIssuer);
      var key := FindVerifyingKey(env, doc, kid);
      if key.Err? {
        return Err(StatusListMalformed(url, KeyResolution(key.error)));
      }
      if !SignatureHolds(env, key.value, token.signingInput, token.signature) {
        return Err(StatusListSignatureInvalid);
      }
      var inner := token.payload.Get("status_list");
      if inner.None? {
        return Err(StatusListMalformed(url, MissingStatusListMember));
      }
      var list := StatusList.TryFrom(env.w, inner.value);
      if list.Err? {
        return Err(BadStatusList(list.error));
      }
      return Ok(list.value);
    }

    method FetchStatusList(env: Env, url: string) returns (r: Result<StatusList, TrustError>)
      requires FetchedOnce() && DocsAgree(env) && ForList(url) !in purposes
      modifies this`issuerDocs, this`purposes, net
      ensures var spec := ListAt(env, expectedIssuer, url);
              if spec.Err? then r == Err(spec.error)
              else r.Ok? && fresh(r.value) && fresh(r.value.bytes) && r.value.Valid()
                   && (r.value.bits, r.value.bytes[..]) == spec.value
      ensures FetchedOnce() && (r.Ok? ==> DocsAgree(env))
      ensures forall u :: ForList(u) in purposes <==> u == url || ForList(u) in old(purposes)
      ensures forall p | p in purposes :: p in old(purposes) || p == ForIssuer(expectedIssuer) || p == ForList(url)
    {
      assert net.answers == env.fetch;
      hide IssuerDoc, ParseAndVerify, Trim, UrlsOf, NoRepeat, ListFromJson, DocsAgree, FetchedOnce;
      var answer := Ask(env, ForList(url), url);
      if answer.Err? {
        return Err(Fetch(answer.error));
      }
      if answer.value.NotFound? {
        return Err(StatusListMalformed(url, ListNotFound));
      }
      r := ParseAndVerifyStatusList(env, url, Trim(answer.value.text));
    }

    method LoadStatusList(env: Env, url: string) returns (r: Result<StatusList, TrustError>)
      requires Valid(env)
      modifies this, net
      ensures var spec := ListAt(env, expectedIssuer, url);
              if spec.Err? then r == Err(spec.error)
              else r.Ok? && r.value.Valid() && (r.value.bits, r.value.bytes[..]) == spec.value
      ensures FetchedOnce() && (r.Ok? ==> Valid(env))
      ensures forall p | p in purposes :: p in old(purposes) || p == ForIssuer(expectedIssuer) || p == ForList(url)
    {
      hide ListAt, FetchedOnce, DocsAgree;
      if url !in statusLists {
        var list :- FetchStatusList(env, url);
        statusLists := statusLists[url := list];
      }
      return Ok(statusLists[url]);
    }

    method VerifySignature(env: Env, stmt: TrustStatement) returns (r: Result<Check, TrustError>)
      requires Valid(env)
      modifies this, net
      ensures r == SignatureCheck(env, stmt)
      ensures FetchedOnce() && (r.Ok? ==> Valid(env))
      ensures forall p | p in purposes ::
                p in old(purposes) || (p.ForIssuer? && KidDid(stmt.kid) == Some(p.iss))
    {
      hide IssuerDoc, FindVerifyingKey, KidDid, UrlsOf, NoRepeat, ListAt;
      if stmt.alg != "ES256" {
        return Ok(Failed(UnsupportedAlg(stmt.alg)));
      }
      var kidDid := KidDid(stmt.kid);
      if kidDid.None? {
        return Ok(Failed(NoFragment(stmt.kid)));
      }
      var doc :- LoadIssuerDoc(env, kidDid.value);
      return Ok(SignatureUnder(env, doc, stmt));
    }

    method CheckStatus(env: Env, stmt: TrustStatement) returns (r: Result<Check, TrustError>)
      requires Valid(env)
      modifies this, net
      ensures r == StatusCheck(env, expectedIssuer, stmt)
      ensures FetchedOnce() && (r.Ok? ==> Valid(env))
      ensures forall p | p in purposes ::
                || p in old(purposes) || p == ForIssuer(expectedIssuer)
                || (stmt.status.Some? && p == ForList(stmt.status.value.uri))
    {
      hide IssuerDoc, ListAt, SlotAt;
      if stmt.status.None? {
        return Ok(Failed(NoStatusClaim));
      }
      var pointer := stmt.status.value;
      var list :- LoadStatusList(env, pointer.uri);
      var value := list.ValueAt(pointer.idx);
      if value.Err? {
        return Err(BadStatusList(value.error));
      }
      return Ok(SlotCheck(value.value, pointer.idx, list.bits));
    }

    method VerifyOne(env: Env, now: u64, stmt: TrustStatement) returns (r: Result<Report, TrustError>)
      requires Valid(env)
      modifies this, net
      ensures r == ReportOn(env, expectedIssuer, now, stmt)
      ensures FetchedOnce() && (r.Ok? ==> Valid(env))
      ensures forall p | p in purposes :: p in old(purposes) || Named(expectedIssuer, stmt, p)
    {
      hide SignatureCheck, StatusCheck, CheckFreshness, KidDid, FetchedOnce, DocsAgree, ListsAgree;
      var issuer := IssuerCheck(expectedIssuer, stmt);
      var signature := Skipped(IssuerMismatch);
      if issuer.Passed? {
        signature :- VerifySignature(env, stmt);
      }
      var freshness := CheckFreshness(stmt, now);
      var status := Skipped(SignatureNotTrusted);
      if signature.Passed? {
        status :- CheckStatus(env, stmt);
      }
      var verdict := issuer.Passed? && signature.Passed? && freshness.Passed? && status.Passed?;
      return Ok(Report(stmt, issuer, signature, freshness, status, verdict));
    }
  }

  /** Whatever the run so far, a cached list was signed under a key of the expected issuer. */
  lemma CachedListIsSigned(env: Env, ctx: VerifyContext, url: string)
    requires ctx.Valid(env) && url in ctx.statusLists
    ensures exists text, token, kid :: ServesToken(env, ctx.expectedIssuer, url, text, token, kid)
              && SignedUnder(env, ctx.expectedIssuer, kid, token.signingInput, token.signature)
              && token.payload.Get("status_list").Some?
              && ListFromJson(env.w, token.payload.Get("status_list").value)
                 == Ok((ctx.statusLists[url].bits, ctx.statusLists[url].bytes[..]))
  {
    ListIsSignedByIssuer(env, ctx.expectedIssuer, url, ctx.statusLists[url].bits, ctx.statusLists[url].bytes[..]);
  }

  /** The tokens of the request, as far as the command gets to see them. */
  function TokensOf(req: Request): seq<string> {
    if req.registryUrl.None? || req.trustIssuer.None? || req.did.Err? then []
    else
      match req.statements(req.registryUrl.value, req.did.value)
      case Ok(tokens) => tokens
      case Err(_) => []
  }

  // --- when the command fails ---

  /** A statement whose check cannot be carried out: its signer, or the list behind it, does not resolve. */
  predicate Unresolvable(env: Env, expected: string, stmt: TrustStatement) {
    && stmt.iss == expected && stmt.alg == "ES256" && KidDid(stmt.kid).Some?
    && var signer := KidDid(stmt.kid).value;
    || IssuerDoc(env, signer).Err?
    || (SignedUnder(env, signer, stmt.kid, stmt.signingInput, stmt.signature) && NoListSlot(env, expected, stmt))
  }

  predicate NoListSlot(env: Env, expected: string, stmt: TrustStatement) {
    && stmt.status.Some?
    && var list := ListAt(env, expected, stmt.status.value.uri);
       list.Err? || stmt.status.value.idx >= SlotCount(list.value.1, list.value.0)
  }

  lemma ReportFailsExactly(env: Env, expected: string, now: u64, stmt: TrustStatement)
    ensures ReportOn(env, expected, now, stmt).Err? <==> Unresolvable(env, expected, stmt)
  {
    hide IssuerDoc, FindVerifyingKey, ListAt, KidDid, SlotAt;
  }

  predicate Checkable(env: Env, expected: string, text: string) {
    FromJwt(env.w, text).Ok? && !Unresolvable(env, expected, FromJwt(env.w, text).value)
  }

  lemma {:induction false} ReportsExist(env: Env, expected: string, now: u64, stmts: seq<TrustStatement>)
    ensures ReportsOn(env, expected, now, stmts).Ok? <==> forall s | s in stmts :: ReportOn(env, expected, now, s).Ok?
  {
    hide ReportOn;
    if stmts == [] {
    } else {
      var front, last := stmts[..|stmts| - 1], stmts[|stmts| - 1];
      assert stmts == front + [last];
      ReportsExist(env, expected, now, front);
    }
  }

  lemma {:induction false} AllDecode(w: Wire, tokens: seq<string>)
    ensures DecodeAll(w, tokens).Ok? <==> forall text | text in tokens :: FromJwt(w, text).Ok?
  {
    hide FromJwt;
    if tokens == [] {
    } else {
      var front, last := tokens[..|tokens| - 1], tokens[|tokens| - 1];
      assert tokens == front + [last];
      AllDecode(w, front);
    }
  }

  /**
   The command gives an answer exactly when the options, the DID and the registry's answer are there and
   every single token decodes and is checkable: one unresolvable statement fails the whole command.
   */
  lemma AnswerExists(env: Env, req: Request)
    ensures VerifyAll(env, req).Ok? <==>
            && req.registryUrl.Some? && req.trustIssuer.Some? && req.did.Ok?
            && req.statements(req.registryUrl.value, req.did.value).Ok?
            && forall text | text in TokensOf(req) :: Checkable(env, req.trustIssuer.value, text)
  {
    hide FromJwt, ReportOn, NewestFirst, Unresolvable;
    if req.registryUrl.Some? && req.trustIssuer.Some? && req.did.Ok? {
      TokensAnswered(env, req.trustIssuer.value, req.now, TokensOf(req));
    }
  }

  lemma TokensAnswered(env: Env, expected: string, now: u64, tokens: seq<string>)
    ensures var all := DecodeAll(env.w, tokens);
            (all.Ok? && ReportsOn(env, expected, now, NewestFirst(all.value)).Ok?)
            <==> (forall text | text in tokens :: Checkable(env, expected, text))
  {
    hide FromJwt, ReportOn, NewestFirst, Unresolvable;
    AllDecode(env.w, tokens);
    if DecodeAll(env.w, tokens).Ok? {
      var stmts := DecodeAll(env.w, tokens).value;
      ReportsExist(env, expected, now, NewestFirst(stmts));
      DecodedInOrder(env.w, tokens);
      forall s | s in NewestFirst(stmts)
        ensures exists text :: text in tokens && FromJwt(env.w, text) == Ok(s)
        ensures ReportOn(env, expected, now, s).Err? <==> Unresolvable(env, expected, s)
      {
        TokenOfReport(env, expected, now, tokens, stmts, s);
        ReportFailsExactly(env, expected, now, s);
      }
      forall text | text in tokens ensures FromJwt(env.w, text).value in NewestFirst(stmts) {
        assert FromJwt(env.w, text) == Ok(FromJwt(env.w, text).value);
        TokenOfReport(env, expected, now, tokens, stmts, FromJwt(env.w, text).value);
      }
    }
  }

  /** Exactly one request for each of some distinct purposes, each of which a token names. */
  ghost predicate FewRequests(env: Env, req: Request, before: seq<string>, after: seq<string>, purposes: seq<Purpose>) {
    && after == before + UrlsOf(purposes) && NoRepeat(purposes)
    && (purposes != [] ==> req.trustIssuer.Some?)
    && (forall p | p in purposes ::
          exists text :: text in TokensOf(req) && NamedByToken(env.w, req.trustIssuer.value, text, p))
    && |after| <= |before| + 1 + 2 * |TokensOf(req)|
  }

  lemma NoRequests(env: Env, req: Request, before: seq<string>)
    ensures FewRequests(env, req, before, before, [])
  {
    assert before + UrlsOf([]) == before;
  }

  lemma RequestsAreNamed(env: Env, req: Request, before: seq<string>, after: seq<string>, stmts: seq<TrustStatement>,
                         purposes: seq<Purpose>)
    requires req.trustIssuer.Some? && DecodeAll(env.w, TokensOf(req)) == Ok(stmts)
    requires after == before + UrlsOf(purposes) && NoRepeat(purposes)
    requires forall p | p in purposes :: exists s :: s in NewestFirst(stmts) && Named(req.trustIssuer.value, s, p)
    ensures FewRequests(env, req, before, after, purposes)
  {
    hide FromJwt, NewestFirst, TokensOf, NoRepeat;
    var expected := req.trustIssuer.value;
    DecodedInOrder(env.w, TokensOf(req));
    forall p | p in purposes
      ensures exists text :: text in TokensOf(req) && NamedByToken(env.w, expected, text, p)
      ensures exists s :: s in stmts && Named(expected, s, p)
    {
      var s :| s in NewestFirst(stmts) && Named(expected, s, p);
      NamedAgain(env, req, stmts, s, p);
    }
    RequestBound(expected, stmts, purposes);
  }

  lemma NamedAgain(env: Env, req: Request, stmts: seq<TrustStatement>, s: TrustStatement, p: Purpose)
    requires req.trustIssuer.Some? && DecodeAll(env.w, TokensOf(req)) == Ok(stmts)
    requires s in NewestFirst(stmts) && Named(req.trustIssuer.value, s, p)
    ensures s in stmts
    ensures exists text :: text in TokensOf(req) && NamedByToken(env.w, req.trustIssuer.value, text, p)
  {
    hide FromJwt, NewestFirst, TokensOf, Named;
    TokenOfReport(env, req.trustIssuer.value, 0, TokensOf(req), stmts, s);
    NewestFirstIsStableSort(stmts, 0);
    assert s in multiset(NewestFirst(stmts));
    assert s in multiset(stmts);
    var text :| text in TokensOf(req) && FromJwt(env.w, text) == Ok(s);
    assert NamedByToken(env.w, req.trustIssuer.value, text, p);
  }

  /**
   The command: with shared caches it gives what checking every statement from nothing gives, and asks
   the network at most once for each issuer's log and for each status list that a token names.
   */
  method CmdVerify(env: Env, req: Request, net: Network)
    returns (r: Result<Answer, TrustError>, ghost purposes: seq<Purpose>)
    requires net.answers == env.fetch
    modifies net
    ensures r == VerifyAll(env, req)
    ensures FewRequests(env, req, old(net.asked), net.asked, purposes)
  {
    hide FromJwt, ReportOn, NewestFirst, FewRequests, Named;
    purposes := [];
    NoRequests(env, req, net.asked);
    if req.registryUrl.None? {
      r := Err(TrustRegistryUrlMissing);
      return;
    }
    if req.trustIssuer.None? {
      r := Err(TrustIssuerMissing);
      return;
    }
    if req.did.Err? {
      r := Err(req.did.error);
      return;
    }
    var fetched := req.statements(req.registryUrl.value, req.did.value);
    if fetched.Err? {
      r := Err(fetched.error);
      return;
    }
    var tokens := fetched.value;
    if tokens == [] {
      r := Ok(Answer(Untrusted, []));
      return;
    }
    var decoding := DecodeStatements(env.w, tokens);
    if decoding.Err? {
      r := Err(decoding.error);
      return;
    }
    var decoded := NewestFirst(decoding.value);
    var ctx := new VerifyContext(req.trustIssuer.value, net);
    assert ctx.askedBefore + UrlsOf([]) == net.asked;
    var reports: seq<Report> := [];
    for i := 0 to |decoded|
      invariant ctx.Valid(env) && ctx.expectedIssuer == req.trustIssuer.value
      invariant ctx.net == net && ctx.askedBefore == old(net.asked)
      invariant forall p | p in ctx.purposes :: exists s :: s in decoded && Named(req.trustIssuer.value, s, p)
      invariant ReportsOn(env, req.trustIssuer.value, req.now, decoded[..i]) == Ok(reports)
    {
      assert decoded[..i + 1][..i] == decoded[..i];
      var report := ctx.VerifyOne(env, req.now, decoded[i]);
      if report.Err? {
        FirstErrorIsKept(env, req.trustIssuer.value, req.now, decoded, i);
        purposes := ctx.purposes;
        RequestsAreNamed(env, req, old(net.asked), net.asked, decoding.value, purposes);
        r := Err(report.error);
        return;
      }
      reports := reports + [report.value];
    }
    purposes := ctx.purposes;
    RequestsAreNamed(env, req, old(net.asked), net.asked, decoding.value, purposes);
    assert decoded[..|decoded|] == decoded;
    r := Ok(Answer(if AnyTrusted(reports) then Trusted else Untrusted, reports));
  }

  lemma {:induction false} FirstErrorIsKept(env: Env, expected: string, now: u64, stmts: seq<TrustStatement>, i: nat)
    requires i < |stmts|
    requires ReportsOn(env, expected, now, stmts[..i]).Ok? && ReportOn(env, expected, now, stmts[i]).Err?
    ensures ReportsOn(env, expected, now, stmts) == Err(ReportOn(env, expected, now, stmts[i]).error)
  {
    hide ReportOn;
    if i < |stmts| - 1 {
      assert stmts[..|stmts| - 1][..i] == stmts[..i];
      FirstErrorIsKept(env, expected, now, stmts[..|stmts| - 1], i);
    }
  }

  method DecodeStatements(w: Wire, tokens: seq<string>) returns (r: Result<seq<TrustStatement>, TrustError>)
    ensures r == DecodeAll(w, tokens)
  {
    hide FromJwt;
    var decoded: seq<TrustStatement> := [];
    for i := 0 to |tokens|
      invariant DecodeAll(w, tokens[..i]) == Ok(decoded)
    {
      assert tokens[..i + 1][..i] == tokens[..i];
      var stmt := TryFromJwt(w, tokens[i]);
      if stmt.Err? {
        FirstBadStatement(w, tokens, i);
        return Err(BadStatement(i + 1, stmt.error));
      }
      decoded := decoded + [stmt.value];
    }
    assert tokens[..|tokens|] == tokens;
    return Ok(decoded);
  }

  lemma {:induction false} FirstBadStatement(w: Wire, tokens: seq<string>, i: nat)
    requires i < |tokens| && DecodeAll(w, tokens[..i]).Ok? && FromJwt(w, tokens[i]).Err?
    ensures DecodeAll(w, tokens) == Err(BadStatement(i + 1, FromJwt(w, tokens[i]).error))
  {
    hide FromJwt;
    if i < |tokens| - 1 {
      assert tokens[..|tokens| - 1][..i] == tokens[..i];
      FirstBadStatement(w, tokens[..|tokens| - 1], i);
    }
  }
}
