/**
 The texts of a genesis entry: its member names, its constants, and the few strings that vary.  A
 property of these holds of every text that the SCID substitution and its inverse look at.
 */
module GenesisTexts {
  import opened Basics
  import opened Json
  import opened Crypto
  import opened PublicKeys
  import opened DidDoc
  import opened LogEntry

  const CONSTANTS := {
    "https://www.w3.org/ns/did/v1", "https://w3id.org/security/jwk/v1", "JsonWebKey2020", "EC", "P-256",
    AUTHENTICATION_KID, ASSERTION_KID, "did:tdw:0.3", "value"
  }

  predicate OnNames(p: string -> bool) {
    && (forall n | n in DOC_NAMES :: p(n)) && (forall n | n in VM_NAMES :: p(n)) && (forall n | n in JWK_NAMES :: p(n))
    && (forall n | n in PARAMETER_NAMES :: p(n))
  }

  predicate OnConstants(p: string -> bool) {
    forall t | t in CONSTANTS :: p(t)
  }

  predicate OnKey(c: Crypto, key: P256PublicKey, p: string -> bool) {
    p(c.base64Url(key.x)) && p(c.base64Url(key.y))
  }

  lemma KeyTexts(c: Crypto, key: P256PublicKey, kid: string, p: string -> bool)
    requires OnNames(p) && OnConstants(p) && OnKey(c, key, p) && p(kid)
    ensures AllTexts(JwkToJson(P256Jwk(c, key, kid)), p)
  {
    hide OnNames, AllTexts;
    var jwk := P256Jwk(c, key, kid);
    var m := JwkToJson(jwk).members;
    NamedIn(p);
    TextsOfString("EC", p);
    TextsOfString("P-256", p);
    TextsOfString(jwk.x, p);
    TextsOfString(jwk.y, p);
    TextsOfString(kid, p);
    forall n | n in m ensures p(n) && AllTexts(m[n], p) {
    }
    TextsOfObject(m, p);
  }

  lemma NamedIn(p: string -> bool)
    requires OnNames(p)
    ensures forall n | n in JWK_NAMES :: p(n)
    ensures forall n | n in VM_NAMES :: p(n)
    ensures forall n | n in DOC_NAMES :: p(n)
    ensures forall n | n in PARAMETER_NAMES :: p(n)
  {
  }

  /** The verification method of a key of a DID, as the genesis document lists it. */
  function KeyMethod(c: Crypto, did: string, key: P256PublicKey, kid: string): VerificationMethod {
    VerificationMethod(did + "#" + kid, "JsonWebKey2020", did, Jwk(P256Jwk(c, key, kid)))
  }

  lemma MethodTexts(c: Crypto, did: string, key: P256PublicKey, kid: string, p: string -> bool)
    requires OnNames(p) && OnConstants(p) && OnKey(c, key, p) && p(kid) && p(did) && p(did + "#" + kid)
    ensures AllTexts(VmToJson(c, KeyMethod(c, did, key, kid)), p)
  {
    KeyTexts(c, key, kid, p);
    NamedIn(p);
    TextsOfString("JsonWebKey2020", p);
    TextsOfString(did, p);
    TextsOfString(did + "#" + kid, p);
    hide OnNames, OnConstants, OnKey, AllTexts, JwkToJson, P256Jwk;
    var vm := KeyMethod(c, did, key, kid);
    var m := VmToJson(c, vm).members;
    forall n | n in m ensures p(n) && AllTexts(m[n], p) {
      PrintedVmMember(c, vm, n);
    }
    TextsOfObject(m, p);
  }

  predicate OnDid(did: string, p: string -> bool) {
    p(did) && p(did + "#" + AUTHENTICATION_KID) && p(did + "#" + ASSERTION_KID)
  }

  lemma MethodListTexts(c: Crypto, did: string, authentication: P256PublicKey, assertion: P256PublicKey,
                        p: string -> bool)
    requires OnNames(p) && OnConstants(p) && OnDid(did, p) && OnKey(c, authentication, p) && OnKey(c, assertion, p)
    ensures var methods := NewGenesis(c, did, authentication, assertion).verificationMethod;
            AllTexts(Arr(PrintAll(methods, VmPrinter(c))), p)
  {
    MethodTexts(c, did, authentication, AUTHENTICATION_KID, p);
    MethodTexts(c, did, assertion, ASSERTION_KID, p);
    hide VmToJson, AllTexts, P256Jwk, OnNames, OnConstants, OnKey, OnDid;
    var methods := NewGenesis(c, did, authentication, assertion).verificationMethod;
    assert methods[0] == KeyMethod(c, did, authentication, AUTHENTICATION_KID);
    assert methods[1] == KeyMethod(c, did, assertion, ASSERTION_KID);
    TextsOfArray(PrintAll(methods, VmPrinter(c)), p);
  }

  lemma ReferenceTexts(c: Crypto, url: string, p: string -> bool)
    requires p(url)
    ensures AllTexts(Arr(PrintAll([Reference(url)], VmOrRefPrinter(c))), p)
  {
    TextsOfString(url, p);
    TextsOfArray(PrintAll([Reference(url)], VmOrRefPrinter(c)), p);
  }

  lemma ContextTexts(p: string -> bool)
    requires OnConstants(p)
    ensures AllTexts(CONTEXT, p)
  {
    hide AllTexts;
    TextsOfString("https://www.w3.org/ns/did/v1", p);
    TextsOfString("https://w3id.org/security/jwk/v1", p);
    TextsOfArray(CONTEXT.items, p);
  }

  /** The members of a document with methods, authentication and assertion keys only. */
  predicate KeysOnly(doc: DidDoc) {
    && doc.alsoKnownAs == [] == doc.controller && doc.keyAgreement == [] && doc.service == []
    && doc.capabilityInvocation == [] == doc.capabilityDelegation
    && doc.verificationMethod != [] && doc.authentication != [] && doc.assertionMethod != []
  }

  const KEYS_ONLY_NAMES := {"@context", "id", "verificationMethod", "authentication", "assertionMethod"}

  lemma KeysOnlyMembers(c: Crypto, doc: DidDoc)
    requires KeysOnly(doc)
    ensures var m := DocToJson(c, doc).members;
      && m.Keys == KEYS_ONLY_NAMES
      && m["@context"] == doc.context && m["id"] == Str(doc.id)
      && m["verificationMethod"] == Arr(PrintAll(doc.verificationMethod, VmPrinter(c)))
      && m["authentication"] == Arr(PrintAll(doc.authentication, VmOrRefPrinter(c)))
      && m["assertionMethod"] == Arr(PrintAll(doc.assertionMethod, VmOrRefPrinter(c)))
  {
    DocMembers(c, doc);
    hide DocMember, PrintAll, VmPrinter, VmOrRefPrinter, ServicePrinter, StringPrinter;
    var m := DocToJson(c, doc).members;
    assert KEYS_ONLY_NAMES <= DOC_NAMES;
    forall n | n in DOC_NAMES ensures n in m <==> n in KEYS_ONLY_NAMES {
      PrintedDocMember(c, doc, n);
    }
  }

  /** Any property of the names, constants and varying strings of a genesis document holds of all its texts. */
  lemma DocumentTexts(c: Crypto, did: string, authentication: P256PublicKey, assertion: P256PublicKey,
                      p: string -> bool)
    requires OnNames(p) && OnConstants(p) && OnDid(did, p) && OnKey(c, authentication, p) && OnKey(c, assertion, p)
    ensures AllTexts(DocToJson(c, NewGenesis(c, did, authentication, assertion)), p)
  {
    var doc := NewGenesis(c, did, authentication, assertion);
    NamedIn(p);
    ContextTexts(p);
    TextsOfString(did, p);
    MethodListTexts(c, did, authentication, assertion, p);
    ReferenceTexts(c, did + "#" + AUTHENTICATION_KID, p);
    ReferenceTexts(c, did + "#" + ASSERTION_KID, p);
    KeysOnlyMembers(c, doc);
    hide AllTexts, OnNames, OnConstants, OnKey, OnDid, P256Jwk, PrintAll, VmPrinter, VmOrRefPrinter, DocToJson;
    var m := DocToJson(c, doc).members;
    forall n | n in KEYS_ONLY_NAMES ensures p(n) && AllTexts(m[n], p) {
    }
    TextsOfObject(m, p);
  }

  // --- parameters ---

  function GenesisParameters(scid: string, mk: string): LogParameters {
    NoParameters(Tdw03).(methodName := Some("did:tdw:0.3"), scid := Some(scid), updateKeys := Some([mk]))
  }

  lemma ParameterTexts(scid: string, mk: string, p: string -> bool)
    requires OnNames(p) && OnConstants(p) && p(scid) && p(mk)
    ensures AllTexts(GenesisParameters(scid, mk).ToJson(), p)
  {
    var params := GenesisParameters(scid, mk);
    NamedIn(p);
    TextsOfString("did:tdw:0.3", p);
    TextsOfString(scid, p);
    TextsOfString(mk, p);
    TextsOfArray(Strings([mk]), p);
    FlagTexts(false, p);
    hide AllTexts, OnNames, OnConstants;
    var m := params.ToJson().members;
    forall n | n in m ensures p(n) && AllTexts(m[n], p) {
      PrintedMember(params, n);
    }
    TextsOfObject(m, p);
  }

  lemma FlagTexts(b: bool, p: string -> bool)
    ensures AllTexts(Bool(b), p)
  {
  }

  // --- the hashed entry ---

  /** The four hashed elements of a genesis entry. */
  function GenesisBody(scid: string, now: string, mk: string, document: Json): Json {
    Arr([Str(scid), Str(now), GenesisParameters(scid, mk).ToJson(), Obj(map["value" := document])])
  }

  lemma BodyTexts(scid: string, now: string, mk: string, document: Json, p: string -> bool)
    requires OnNames(p) && OnConstants(p) && p(scid) && p(now) && p(mk) && AllTexts(document, p)
    ensures AllTexts(GenesisBody(scid, now, mk, document), p)
  {
    ParameterTexts(scid, mk, p);
    TextsOfString(scid, p);
    TextsOfString(now, p);
    assert p("value");
    hide AllTexts, OnNames, OnConstants, LogParameters.ToJson;
    TextsOfObject(map["value" := document], p);
    TextsOfArray(GenesisBody(scid, now, mk, document).items, p);
  }
}
