/**
 What a created DID consists of, written out: its keys, its document, its parameters, and the entry in
 both formats (swiyu-didtool/src/cmd/did/create.rs, swiyu-core/src/diddoc/mod.rs, swiyu-core/src/didlog/mod.rs).
 */
module Creation {
  import opened Basics
  import opened Text
  import opened Json
  import opened Crypto
  import opened Scid
  import opened PublicKeys
  import opened DidDoc
  import opened LogEntry
  import opened EntryEdits
  import opened Jsonl
  import opened KeyStore
  import opened LogVerifier
  import opened Producer
  import opened Genesis
  import opened GenesisTexts
  import opened LogGrowth
  import opened Lifecycle
  import Did
  import DidUrl
  import Proof

  // --- the keys ---

  /** A key file is imported, otherwise a key is generated. */
  predicate PreparedFor(tool: Tool, file: Option<string>, generated: Bytes, key: Bytes) {
    if file.Some? then tool.readKey(file.value) == Some(key) else key == generated
  }

  predicate Prepared(tool: Tool, files: KeyFiles, generated: KeySet, keys: KeySet) {
    && PreparedFor(tool, files.authorized, generated.authorized, keys.authorized)
    && PreparedFor(tool, files.authentication, generated.authentication, keys.authentication)
    && PreparedFor(tool, files.assertion, generated.assertion, keys.assertion)
    && (files.authentication.Some? && files.assertion.Some? ==>
        tool.p256Public(keys.authentication) != tool.p256Public(keys.assertion))
  }

  lemma PreparedIsExact(tool: Tool, files: KeyFiles, generated: KeySet, keys: KeySet)
    ensures PreparedKeys(tool, files, generated) == Ok(keys) <==> Prepared(tool, files, generated, keys)
  {
  }

  predicate Unreadable(tool: Tool, file: Option<string>) {
    file.Some? && tool.readKey(file.value).None?
  }

  /** The first key file that cannot be read; otherwise two files for the document with one key. */
  predicate PreparationFails(tool: Tool, files: KeyFiles, error: CreateError) {
    if Unreadable(tool, files.authorized) then error == KeyFile(Authorized)
    else if Unreadable(tool, files.authentication) then error == KeyFile(Authentication)
    else if Unreadable(tool, files.assertion) then error == KeyFile(Assertion)
    else
      && files.authentication.Some? && files.assertion.Some?
      && tool.p256Public(tool.readKey(files.authentication.value).value)
         == tool.p256Public(tool.readKey(files.assertion.value).value)
      && error == IdenticalKeys
  }

  lemma PreparationErrorIsExact(tool: Tool, files: KeyFiles, generated: KeySet, error: CreateError)
    ensures PreparedKeys(tool, files, generated) == Err(error) <==> PreparationFails(tool, files, error)
  {
  }

  lemma UrlErrorIsExact(url: string)
    ensures DidUrl.UrlToDidComponents(url) == Err(DidUrl.NotHttps) <==> !("https://" <= url)
    ensures DidUrl.UrlToDidComponents(url) == Err(DidUrl.MissingHost) <==> url == "https://" || "https:///" <= url
  {
    hide DidUrl.EncodeHost, DidUrl.DidPath, DidUrl.Segments;
    if "https://" <= url {
      var rest := url[8..];
      assert url == "https://" + rest;
      assert "https:///" <= url <==> "/" <= rest;
      if "/" <= rest {
        assert rest == "" + ['/'] + rest[1..];
        SplitOnceAt("", '/', rest[1..]);
      }
    }
  }

  /** The URL, the key files, the DID, and last a directory that is there already. */
  predicate CreateFails(tool: Tool, dirs: map<string, EntryDir>, url: string, format: Format, files: KeyFiles,
                        generated: KeySet, now: int, error: CreateError) {
    match DidUrl.UrlToDidComponents(url)
    case Err(e) => error == Url(e)
    case Ok((domain, path)) =>
      match PreparedKeys(tool, files, generated)
      case Err(_) => PreparationFails(tool, files, error)
      case Ok(keys) =>
        if !Did.IsValidDomain(domain) then error == BadDid(Did.InvalidDomain)
        else if path.Some? && !Did.IsValidPath(path.value) then error == BadDid(Did.InvalidPath)
        else
          var created := CreatedEntry(tool, format, domain, path, keys, NowText(tool, now));
          && created.Ok?
          && var hash := tool.didHash(created.value.did.ToString());
             hash in dirs && error == Store(AlreadyExists(hash))
  }

  lemma CreateErrorIsExact(tool: Tool, dirs: map<string, EntryDir>, url: string, format: Format, files: KeyFiles,
                           generated: KeySet, now: int, error: CreateError)
    ensures CreateOutcome(tool, dirs, url, format, files, generated, now) == Err(error) <==>
            CreateFails(tool, dirs, url, format, files, generated, now, error)
  {
    hide DidUrl.UrlToDidComponents, PreparedKeys, PreparationFails, CreatedEntry, Did.IsValidDomain, Did.IsValidPath,
         Did.Did.ToString, LogLine, NewEntry;
    PreparationErrorIsExact(tool, files, generated, error);
    if DidUrl.UrlToDidComponents(url).Ok? && PreparedKeys(tool, files, generated).Ok? {
      var (domain, path) := DidUrl.UrlToDidComponents(url).value;
      var keys := PreparedKeys(tool, files, generated).value;
      InvalidDids(tool, format, domain, path, keys, NowText(tool, now));
    }
  }

  lemma InvalidDids(tool: Tool, format: Format, domain: string, path: Option<string>, keys: KeySet, now: string)
    ensures CreatedEntry(tool, format, domain, path, keys, now).Err? ==>
              var e := CreatedEntry(tool, format, domain, path, keys, now).error;
              if !Did.IsValidDomain(domain) then e == Did.InvalidDomain
              else path.Some? && !Did.IsValidPath(path.value) && e == Did.InvalidPath
    ensures CreatedEntry(tool, format, domain, path, keys, now).Ok? <==>
            Did.IsValidDomain(domain) && (path.Some? ==> Did.IsValidPath(path.value))
  {
    hide PreliminaryEntry, HashLogEntry, ReplaceStrings, WithVersionId, WithProof, SignedProof, DocumentIn,
         Did.IsValidDomain, Did.IsValidPath, Did.Did.ToString;
  }

  /** A created DID is stored under its text, with the prepared keys as its only snapshot. */
  lemma CreatedKeys(tool: Tool, dirs: map<string, EntryDir>, url: string, format: Format, files: KeyFiles,
                    generated: KeySet, now: int) returns (keys: KeySet)
    requires CreateOutcome(tool, dirs, url, format, files, generated, now).Ok?
    ensures var (did, _, dirs') := CreateOutcome(tool, dirs, url, format, files, generated, now).value;
      var hash := tool.didHash(did.ToString());
      && hash !in dirs && dirs' == dirs[hash := EntryDir(did.ToString(), map["0001" := keys])]
      && KeysAt(dirs'[hash], 1) == Some(keys) && Prepared(tool, files, generated, keys)
  {
    hide DidUrl.UrlToDidComponents, CreatedEntry, PreparedKeys, KeysAt, Did.Did.ToString;
    keys := PreparedKeys(tool, files, generated).value;
    PreparedIsExact(tool, files, generated, keys);
    var (did, _, _) := CreateOutcome(tool, dirs, url, format, files, generated, now).value;
    FirstSnapshot(did.ToString(), keys);
  }

  // --- the document ---

  /** The JWK of a P-256 key under a key id. */
  function JwkOf(c: Crypto, key: P256PublicKey, kid: string): Json {
    Obj(map["kty" := Str("EC"), "crv" := Str("P-256"), "x" := Str(c.base64Url(key.x)),
            "y" := Str(c.base64Url(key.y)), "kid" := Str(kid)])
  }

  function MethodOf(c: Crypto, did: string, key: P256PublicKey, kid: string): Json {
    Obj(map["id" := Str(did + "#" + kid), "type" := Str("JsonWebKey2020"), "controller" := Str(did),
            "publicKeyJwk" := JwkOf(c, key, kid)])
  }

  /** The document of a DID: the authentication key first, then the assertion key, each under its own purpose. */
  function DocumentOf(c: Crypto, did: string, authentication: P256PublicKey, assertion: P256PublicKey): Json {
    Obj(map["@context" := Arr([Str("https://www.w3.org/ns/did/v1"), Str("https://w3id.org/security/jwk/v1")]),
            "id" := Str(did),
            "verificationMethod" := Arr([MethodOf(c, did, authentication, "authentication-key-01"),
                                         MethodOf(c, did, assertion, "assertion-key-01")]),
            "authentication" := Arr([Str(did + "#" + "authentication-key-01")]),
            "assertionMethod" := Arr([Str(did + "#" + "assertion-key-01")])])
  }

  lemma PrintedJwk(c: Crypto, key: P256PublicKey, kid: string)
    ensures JwkToJson(P256Jwk(c, key, kid)) == JwkOf(c, key, kid)
  {
    var jwk := P256Jwk(c, key, kid);
    var m, n := JwkToJson(jwk).members, JwkOf(c, key, kid).members;
    assert m.Keys == n.Keys;
  }

  lemma PrintedMethod(c: Crypto, did: string, key: P256PublicKey, kid: string)
    ensures VmToJson(c, KeyMethod(c, did, key, kid)) == MethodOf(c, did, key, kid)
  {
    hide JwkToJson, P256Jwk, JwkOf;
    PrintedJwk(c, key, kid);
    var m, n := VmToJson(c, KeyMethod(c, did, key, kid)).members, MethodOf(c, did, key, kid).members;
    assert m.Keys == n.Keys;
  }

  lemma PrintedReference(c: Crypto, url: string)
    ensures PrintAll([Reference(url)], VmOrRefPrinter(c)) == [Str(url)]
  {
  }

  lemma PrintedMethods(c: Crypto, did: string, authentication: P256PublicKey, assertion: P256PublicKey)
    ensures PrintAll(NewGenesis(c, did, authentication, assertion).verificationMethod, VmPrinter(c))
         == [MethodOf(c, did, authentication, "authentication-key-01"), MethodOf(c, did, assertion, "assertion-key-01")]
  {
    hide VmToJson, P256Jwk, MethodOf;
    var methods := NewGenesis(c, did, authentication, assertion).verificationMethod;
    assert methods == [KeyMethod(c, did, authentication, AUTHENTICATION_KID),
                       KeyMethod(c, did, assertion, ASSERTION_KID)];
    PrintedMethod(c, did, authentication, AUTHENTICATION_KID);
    PrintedMethod(c, did, assertion, ASSERTION_KID);
  }

  /** The document that create and rotate print, member by member. */
  lemma DocumentIsExact(tool: Tool, did: string, keys: KeySet)
    ensures KeyDocument(tool, did, keys)
         == DocumentOf(tool.crypto, did, tool.p256Public(keys.authentication), tool.p256Public(keys.assertion))
  {
    var c := tool.crypto;
    var authentication, assertion := tool.p256Public(keys.authentication), tool.p256Public(keys.assertion);
    var doc := NewGenesis(c, did, authentication, assertion);
    KeysOnlyMembers(c, doc);
    PrintedMethods(c, did, authentication, assertion);
    PrintedReference(c, did + "#" + AUTHENTICATION_KID);
    PrintedReference(c, did + "#" + ASSERTION_KID);
    hide DocToJson, PrintAll, VmPrinter, VmOrRefPrinter, MethodOf, P256Jwk;
    assert DocToJson(c, doc).members == DocumentOf(c, did, authentication, assertion).members;
  }

  /** The newest document of an active world lists the public keys of the newest snapshot, each in its place. */
  lemma ActiveDocument(tool: Tool, w: World, did: Did.Did) returns (keys: KeySet)
    requires Active(tool, w, did)
    ensures var entries, hash := EntriesOf(tool, w.text), tool.didHash(did.ToString());
      && entries != [] && hash in w.dirs && KeysAt(w.dirs[hash], |entries|) == Some(keys)
      && entries[|entries| - 1].state
         == Value(DocumentOf(tool.crypto, did.ToString(), tool.p256Public(keys.authentication),
                             tool.p256Public(keys.assertion)))
  {
    hide FromJsonl, SoundLog, KeysAt, KeyDocument, DocumentOf, EffectiveKeys, AuthorizedMultikey, Did.Did.ToString,
         EntriesOf, Lockstep;
    ActiveLogIsSound(tool, w, did);
    var entries, hash := EntriesOf(tool, w.text), tool.didHash(did.ToString());
    assert SnapshotOf(tool, w.dirs[hash], did.ToString(), entries, |entries|);
    keys := KeysAt(w.dirs[hash], |entries|).value;
    DocumentIsExact(tool, did.ToString(), keys);
  }

  // --- the parameters ---

  function MethodName(format: Format): string {
    if format == Tdw03 then "did:tdw:0.3" else "did:webvh:1.0"
  }

  function FirstParameters(format: Format, scid: string, mk: string): LogParameters {
    NoParameters(format).(methodName := Some(MethodName(format)), scid := Some(scid), updateKeys := Some([mk]))
  }

  /** Only did:tdw announces `portable`, as false. */
  lemma ParametersAreExact(scid: string, mk: string)
    ensures FirstParameters(Tdw03, scid, mk).ToJson()
         == Obj(map["method" := Str("did:tdw:0.3"), "scid" := Str(scid), "updateKeys" := Arr([Str(mk)]),
                    "portable" := Bool(false)])
    ensures FirstParameters(WebVh10, scid, mk).ToJson() == WebVhParameters(scid, mk)
  {
    assert Strings([mk]) == [Str(mk)];
    var tdw := FirstParameters(Tdw03, scid, mk).ToJson().members;
    assert tdw.Keys == {"method", "scid", "updateKeys", "portable"};
    var webvh := FirstParameters(WebVh10, scid, mk).ToJson().members;
    assert webvh.Keys == {"method", "scid", "updateKeys"};
  }

  function WebVhParameters(scid: string, mk: string): Json {
    Obj(map["method" := Str("did:webvh:1.0"), "scid" := Str(scid), "updateKeys" := Arr([Str(mk)])])
  }

  // --- the did:webvh entry ---

  /** The hashed members of a did:webvh genesis entry. */
  function WebVhBody(scid: string, now: string, mk: string, document: Json): Json {
    Obj(map["versionId" := Str(scid), "versionTime" := Str(now), "parameters" := WebVhParameters(scid, mk),
            "state" := Obj(map["value" := document])])
  }

  function WebVhEntry(versionId: string, scid: string, now: string, mk: string, document: Json, proof: Json): Json {
    Obj(map["versionId" := Str(versionId), "versionTime" := Str(now), "parameters" := WebVhParameters(scid, mk),
            "state" := Obj(map["value" := document]), "proof" := Arr([proof])])
  }

  lemma WebVhPreliminary(tool: Tool, placeholderDid: string, keys: KeySet, now: string)
    ensures PreliminaryEntry(tool, WebVh10, placeholderDid, keys, now)
         == WebVhBody(PLACEHOLDER, now, AuthorizedMultikey(tool, keys), KeyDocument(tool, placeholderDid, keys))
  {
    ParametersAreExact(PLACEHOLDER, AuthorizedMultikey(tool, keys));
    hide DocToJson, LogParameters.ToJson, AuthorizedMultikey;
    var v := PreliminaryEntry(tool, WebVh10, placeholderDid, keys, now);
    var b := WebVhBody(PLACEHOLDER, now, AuthorizedMultikey(tool, keys), KeyDocument(tool, placeholderDid, keys));
    assert v.members == b.members;
  }

  lemma PlainKept(t: string, scid: string)
    requires Plain(t)
    ensures !Contains(t, PLACEHOLDER) && ReplaceStrings(Str(t), PLACEHOLDER, scid) == Str(t)
  {
    hide Contains, ReplaceAll, Plain;
    PlainIsFree(t);
    ReplaceInFree(t, PLACEHOLDER, scid);
  }

  lemma PlaceholderReplaced(scid: string)
    ensures ReplaceStrings(Str(PLACEHOLDER), PLACEHOLDER, scid) == Str(scid)
  {
    hide ReplaceAll;
    PlaceholderSubstituted(scid);
  }

  lemma PlainNames()
    ensures Plain("method") && Plain("scid") && Plain("updateKeys") && Plain("did:webvh:1.0")
    ensures Plain("versionId") && Plain("versionTime") && Plain("parameters") && Plain("state")
  {
  }

  lemma WebVhParametersSubstituted(mk: string, scid: string)
    requires Plain(mk)
    ensures ReplaceStrings(WebVhParameters(PLACEHOLDER, mk), PLACEHOLDER, scid) == WebVhParameters(scid, mk)
  {
    hide ReplaceStrings, Contains, Plain;
    PlainNames();
    PlainKept("method", scid);
    PlainKept("scid", scid);
    PlainKept("updateKeys", scid);
    PlainKept("did:webvh:1.0", scid);
    PlainKept(mk, scid);
    PlaceholderReplaced(scid);
    ReplacedArray([Str(mk)], [Str(mk)], PLACEHOLDER, scid);
    ReplacedObject(WebVhParameters(PLACEHOLDER, mk).members, WebVhParameters(scid, mk).members, PLACEHOLDER, scid);
  }

  lemma WebVhSubstituted(now: string, mk: string, document: Json, scid: string)
    requires Plain(now) && Plain(mk)
    ensures ReplaceStrings(WebVhBody(PLACEHOLDER, now, mk, document), PLACEHOLDER, scid)
         == WebVhBody(scid, now, mk, ReplaceStrings(document, PLACEHOLDER, scid))
  {
    hide ReplaceStrings, Contains, Plain, WebVhParameters;
    WebVhParametersSubstituted(mk, scid);
    SubstitutedState(document, scid);
    PlainNames();
    PlainKept("versionId", scid);
    PlainKept("versionTime", scid);
    PlainKept("parameters", scid);
    PlainKept("state", scid);
    PlainKept(now, scid);
    PlaceholderReplaced(scid);
    ReplacedObject(WebVhBody(PLACEHOLDER, now, mk, document).members,
                   WebVhBody(scid, now, mk, ReplaceStrings(document, PLACEHOLDER, scid)).members, PLACEHOLDER, scid);
  }

  /** What create writes for did:webvh: the same steps on an object, and a proof made for assertion. */
  lemma WebVhShape(tool: Tool, domain: string, path: Option<string>, keys: KeySet, now: string, created: Created)
    requires LawfulTool(tool) && CreatedEntry(tool, WebVh10, domain, path, keys, now) == Ok(created) && Plain(now)
    ensures var mk := AuthorizedMultikey(tool, keys);
      var placeholderDocument := KeyDocument(tool, Did.Did(Did.WebVh, None, domain, path).ToString(), keys);
      var scid := HashLogEntry(tool.crypto, WebVhBody("{SCID}", now, mk, placeholderDocument));
      var document := ReplaceStrings(placeholderDocument, "{SCID}", scid);
      var versionId := "1-" + HashLogEntry(tool.crypto, WebVhBody(scid, now, mk, document));
      && created.did == Did.Did(Did.WebVh, Some(scid), domain, path) && created.did.Valid()
      && created.entry == WebVhEntry(versionId, scid, now, mk, document,
                            SignedProof(tool, keys, document, Proof.AssertionMethod, versionId, now))
  {
    hide ReplaceStrings, HashLogEntry, SignedProof, KeyDocument, AuthorizedMultikey, PreliminaryEntry, WebVhParameters,
         Did.Did.ToString, Did.IsValidDomain, Did.IsValidPath;
    var mk := AuthorizedMultikey(tool, keys);
    var placeholderDid := Did.Did(Did.WebVh, None, domain, path).ToString();
    var placeholderDocument := KeyDocument(tool, placeholderDid, keys);
    MultikeyIsPlain(tool, keys);
    WebVhPreliminary(tool, placeholderDid, keys, now);
    var scid := HashLogEntry(tool.crypto, WebVhBody(PLACEHOLDER, now, mk, placeholderDocument));
    WebVhSubstituted(now, mk, placeholderDocument, scid);
    var document := ReplaceStrings(placeholderDocument, PLACEHOLDER, scid);
    var body := WebVhBody(scid, now, mk, document);
    var versionId := "1-" + HashLogEntry(tool.crypto, body);
    var proof := SignedProof(tool, keys, document, Proof.AssertionMethod, versionId, now);
    WebVhEdited(versionId, scid, now, mk, document, proof);
  }

  lemma WebVhEdited(versionId: string, scid: string, now: string, mk: string, document: Json, proof: Json)
    ensures var v := WithVersionId(WebVhBody(scid, now, mk, document), versionId, WebVh10);
      && DocumentIn(v, WebVh10) == document
      && WithProof(v, proof, WebVh10) == WebVhEntry(versionId, scid, now, mk, document, proof)
  {
    hide WebVhParameters;
    var v := WithVersionId(WebVhBody(scid, now, mk, document), versionId, WebVh10);
    assert WithProof(v, proof, WebVh10).members == WebVhEntry(versionId, scid, now, mk, document, proof).members;
  }
}
