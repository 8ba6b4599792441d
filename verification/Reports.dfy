/**
 What the reports and errors of `trust verify` say (swiyu-didtool/src/cmd/trust/verify.rs): which note each
 check carries, and which error a failing resolution ends the command with.
 */
module Reports {
  import opened Basics
  import opened Text
  import opened PublicKeys
  import opened StatusLists
  import opened TrustStatements
  import opened TrustVerify
  import opened Wire
  import Did
  import DidDoc
  import DidUrl
  import Jsonl

  // --- the checks of a report ---

  /** Too early, too late, or within the window: exactly one, and the bounds of the statement are named. */
  predicate FreshnessSays(stmt: TrustStatement, now: u64, check: Check) {
    match check
    case Failed(NotYetValid(t)) => stmt.nbf == Some(t) && now < t
    case Failed(Expired(t)) => stmt.exp == Some(t) && t <= now && (stmt.nbf.Some? ==> stmt.nbf.value <= now)
    case Passed(WithinWindow(from, until)) => from == stmt.nbf && until == stmt.exp && Current(stmt, now)
    case _ => false
  }

  predicate IssuerSays(expected: string, stmt: TrustStatement, check: Check) {
    match check
    case Passed(IssuerMatches) => stmt.iss == expected
    case Failed(IssuerDiffers(iss)) => iss == stmt.iss != expected
    case _ => false
  }

  /** The signature check of a statement of the issuer, and why it fails. */
  ghost predicate SignatureSays(env: Env, stmt: TrustStatement, check: Check) {
    match check
    case Failed(UnsupportedAlg(alg)) => alg == stmt.alg != "ES256"
    case Failed(NoFragment(kid)) => stmt.alg == "ES256" && kid == stmt.kid && '#' !in kid
    case _ =>
      && stmt.alg == "ES256" && KidDid(stmt.kid).Some?
      && var did := KidDid(stmt.kid).value;
      && IssuerDoc(env, did).Ok?
      && var key := FindVerifyingKey(env, IssuerDoc(env, did).value, stmt.kid);
         match check
         case Failed(NoKey(reason)) => key == Err(reason)
         case Failed(NotASignature) => key.Ok? && |stmt.signature| != 64
         case Failed(SignatureMismatch) =>
           key.Ok? && |stmt.signature| == 64 && !env.p256Verify(key.value, stmt.signingInput, stmt.signature)
         case Passed(SignedBy(kid)) =>
           kid == stmt.kid && SignedUnder(env, did, kid, stmt.signingInput, stmt.signature)
         case _ => false
  }

  /** The status check of a signed statement: the value of the slot pointed at, which passes only if valid. */
  ghost predicate StatusSays(env: Env, expected: string, stmt: TrustStatement, check: Check) {
    match stmt.status
    case None => check == Failed(NoStatusClaim)
    case Some(pointer) =>
      && ListAt(env, expected, pointer.uri).Ok?
      && var (bits, bytes) := ListAt(env, expected, pointer.uri).value;
      && pointer.idx < SlotCount(bytes, bits)
      && var slot := Slot(StatusValue.FromRaw(SlotAt(bytes, bits, pointer.idx), bits), pointer.idx, bits);
         check == if SlotAt(bytes, bits, pointer.idx) == 0 then Passed(slot) else Failed(slot)
  }

  lemma FreshnessIsExact(stmt: TrustStatement, now: u64)
    ensures FreshnessSays(stmt, now, CheckFreshness(stmt, now))
  {
  }

  lemma SignatureCheckSays(env: Env, stmt: TrustStatement)
    ensures SignatureCheck(env, stmt).Ok? ==> SignatureSays(env, stmt, SignatureCheck(env, stmt).value)
    ensures SignatureCheck(env, stmt).Err? ==>
              && KidDid(stmt.kid).Some? && IssuerDoc(env, KidDid(stmt.kid).value).Err?
              && SignatureCheck(env, stmt).error == IssuerDoc(env, KidDid(stmt.kid).value).error
    ensures SignatureCheck(env, stmt).Ok? && SignatureCheck(env, stmt).value.Passed? ==>
              KidDid(stmt.kid).Some? && IssuerDoc(env, KidDid(stmt.kid).value).Ok?
  {
    hide IssuerDoc, FindVerifyingKey;
  }

  lemma StatusCheckSays(env: Env, expected: string, stmt: TrustStatement)
    ensures StatusCheck(env, expected, stmt).Ok? ==>
              StatusSays(env, expected, stmt, StatusCheck(env, expected, stmt).value)
    ensures StatusCheck(env, expected, stmt).Err? ==>
              && stmt.status.Some?
              && var list := ListAt(env, expected, stmt.status.value.uri);
                 StatusCheck(env, expected, stmt).error ==
                   if list.Err? then list.error
                   else BadStatusList(IdxOutOfRange(stmt.status.value.idx, SlotCount(list.value.1, list.value.0)))
  {
    hide ListAt, SlotAt;
  }

  /** Each check of a report says what it found; a check behind a failed one is skipped. */
  lemma ReportIsExact(env: Env, expected: string, now: u64, stmt: TrustStatement, r: Report)
    requires ReportOn(env, expected, now, stmt) == Ok(r)
    ensures r.statement == stmt && IssuerSays(expected, stmt, r.issuer) && FreshnessSays(stmt, now, r.freshness)
    ensures if stmt.iss == expected then SignatureSays(env, stmt, r.signature)
            else r.signature == Skipped(IssuerMismatch)
    ensures if r.signature.Passed? then StatusSays(env, expected, stmt, r.status)
            else r.status == Skipped(SignatureNotTrusted)
  {
    hide SignatureCheck, StatusCheck, CheckFreshness, SignatureSays, StatusSays, FreshnessSays, KidDid, IssuerDoc,
         ListAt;
    SignatureCheckSays(env, stmt);
    StatusCheckSays(env, expected, stmt);
    FreshnessIsExact(stmt, now);
  }

  // --- errors ---

  /** Why an issuer's document could not be had. */
  ghost predicate ResolutionFails(env: Env, iss: string, error: TrustError) {
    match Did.FromStr(iss)
    case Err(e) => error == IssuerResolution(iss, BadDid(e))
    case Ok(did) =>
      var url := DidUrl.LogUrl(did);
      match env.fetch(url)
      case Err(e) => error == Fetch(e)
      case Ok(NotFound) => error == IssuerResolution(iss, LogNotFound(url))
      case Ok(Found(text)) => NoDocumentIn(env, iss, text, error)
  }

  ghost predicate NoDocumentIn(env: Env, iss: string, text: string, error: TrustError) {
    var log := Jsonl.FromJsonl(env.t, text);
    match error
    case IssuerResolution(i, BadLog(e)) => i == iss && log == Err(e)
    case IssuerResolution(i, EmptyLog) => i == iss && log == Ok([])
    case IssuerResolution(i, PatchState) =>
      i == iss && log.Ok? && log.value != [] && log.value[|log.value| - 1].state.Patch?
    case BadDidDoc(e) =>
      && log.Ok? && log.value != [] && log.value[|log.value| - 1].state.Value?
      && DidDoc.DocFromJson(env.c, log.value[|log.value| - 1].state.doc) == Err(e)
    case _ => false
  }

  lemma ResolutionErrorIsExact(env: Env, iss: string)
    ensures IssuerDoc(env, iss).Err? ==> ResolutionFails(env, iss, IssuerDoc(env, iss).error)
  {
    hide Did.FromStr, DidUrl.LogUrl, Jsonl.FromJsonl, DidDoc.DocFromJson;
  }

  /** Why the list at a URL is not taken. */
  ghost predicate ListFails(env: Env, expected: string, url: string, error: TrustError) {
    match env.fetch(url)
    case Err(e) => error == Fetch(e)
    case Ok(NotFound) => error == StatusListMalformed(url, ListNotFound)
    case Ok(Found(text)) =>
      match DecodeListToken(env.w, Trim(text))
      case Err(reason) => error == StatusListMalformed(url, reason)
      case Ok(token) => TokenFails(env, expected, url, token, error)
  }

  ghost predicate TokenFails(env: Env, expected: string, url: string, token: ListToken, error: TrustError) {
    var alg, kid := token.header.GetStr("alg"), token.header.GetStr("kid");
    if alg != Some("ES256") then
      error == StatusListMalformed(url, ListAlg(if alg.Some? then alg.value else "(missing)"))
    else if kid.None? then error == StatusListMalformed(url, MissingKid)
    else if '#' !in kid.value then error == StatusListMalformed(url, KidWithoutFragment(kid.value))
    else if KidDid(kid.value) != Some(expected) then
      error == StatusListMalformed(url, KidOfOther(KidDid(kid.value).value))
    else if IssuerDoc(env, expected).Err? then error == IssuerDoc(env, expected).error
    else
      var key := FindVerifyingKey(env, IssuerDoc(env, expected).value, kid.value);
      if key.Err? then error == StatusListMalformed(url, KeyResolution(key.error))
      else if !SignatureHolds(env, key.value, token.signingInput, token.signature) then
        error == StatusListSignatureInvalid
      else if token.payload.Get("status_list").None? then error == StatusListMalformed(url, MissingStatusListMember)
      else
        var list := ListFromJson(env.w, token.payload.Get("status_list").value);
        list.Err? && error == BadStatusList(list.error)
  }

  lemma ListErrorIsExact(env: Env, expected: string, url: string)
    ensures ListAt(env, expected, url).Err? ==> ListFails(env, expected, url, ListAt(env, expected, url).error)
  {
    hide IssuerDoc, FindVerifyingKey, DecodeListToken, ListFromJson, Trim, SignatureHolds;
  }

  /**
   The error of a statement that cannot be checked: its signer does not resolve, or its list is not to be had
   or has no such slot.
   */
  lemma ReportErrorIsExact(env: Env, expected: string, now: u64, stmt: TrustStatement)
    requires ReportOn(env, expected, now, stmt).Err?
    ensures stmt.iss == expected && KidDid(stmt.kid).Some?
    ensures var error, signer := ReportOn(env, expected, now, stmt).error, KidDid(stmt.kid).value;
      if IssuerDoc(env, signer).Err? then ResolutionFails(env, signer, error)
      else
        && stmt.status.Some?
        && var list := ListAt(env, expected, stmt.status.value.uri);
           if list.Err? then ListFails(env, expected, stmt.status.value.uri, error)
           else error == BadStatusList(IdxOutOfRange(stmt.status.value.idx, SlotCount(list.value.1, list.value.0)))
  {
    hide SignatureCheck, StatusCheck, SignatureSays, StatusSays, IssuerDoc, ListAt, KidDid, ResolutionFails, ListFails;
    SignatureCheckSays(env, stmt);
    StatusCheckSays(env, expected, stmt);
    if KidDid(stmt.kid).Some? {
      ResolutionErrorIsExact(env, KidDid(stmt.kid).value);
    }
    if stmt.status.Some? {
      ListErrorIsExact(env, expected, stmt.status.value.uri);
    }
  }

  // --- tokens and keys ---

  /** What is wrong with the text of a list token: its shape, then each segment in turn. */
  predicate ListTokenFails(w: Wire, jwt: string, reason: ListReason) {
    var segs := Split(jwt, '.');
    if |segs| != 3 then reason == Segments(|segs|)
    else
      match DecodeJson(w, segs[0])
      case Err(NoBase64) => reason == NotBase64Segment("header")
      case Err(NoJson) => reason == NotJsonSegment("header")
      case Ok(_) =>
        match DecodeJson(w, segs[1])
        case Err(NoBase64) => reason == NotBase64Segment("payload")
        case Err(NoJson) => reason == NotJsonSegment("payload")
        case Ok(_) => w.decode64(segs[2]).None? && reason == NotBase64Segment("signature")
  }

  lemma ListTokenErrorIsExact(w: Wire, jwt: string, reason: ListReason)
    ensures DecodeListToken(w, jwt) == Err(reason) <==> ListTokenFails(w, jwt, reason)
  {
    hide Split, DecodeJson;
  }

  /** An Ed25519 key that decodes is the wrong kind of key; every other key but P-256 ones is malformed. */
  predicate KeyFails(env: Env, doc: DidDoc.DidDoc, kid: string, reason: KeyReason) {
    match FindMethod(doc.verificationMethod, kid)
    case None => reason == NoMethod(kid)
    case Some(vm) =>
      match vm.publicKey
      case Multibase(_) => reason == NotJwk
      case Jwk(EC(crv, _, _, _)) =>
        (crv != "P-256" || env.p256Key(vm.publicKey.jwk).None?) && reason == MalformedJwk
      case Jwk(OKP(crv, x, _)) =>
        var key := env.w.decode64(x);
        if crv == "Ed25519" && key.Some? && |key.value| == 32 && env.c.edValid(key.value) then
          reason == NotEs256("EdDSA")
        else reason == MalformedJwk
      case Jwk(RSA(_, _, _)) => reason == MalformedJwk
  }

  lemma KeyErrorIsExact(env: Env, doc: DidDoc.DidDoc, kid: string, reason: KeyReason)
    ensures FindVerifyingKey(env, doc, kid) == Err(reason) <==> KeyFails(env, doc, kid, reason)
  {
    hide FindMethod;
  }
}
