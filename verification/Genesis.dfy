/**
 The genesis entry that `did create` writes is accepted by the verifier: substituting the SCID into the
 preliminary entry keeps its shape, and the verifier's substitution undoes it.
 */
module Genesis {
  import opened Basics
  import opened Text
  import opened Json
  import opened Crypto
  import opened Scid
  import opened PublicKeys
  import opened LogEntry
  import opened EntryEdits
  import opened KeyStore
  import opened LogVerifier
  import opened Producer
  import opened DidDoc
  import opened GenesisTexts
  import Did
  import DidUrl
  import Proof

  // --- texts in which every placeholder is bordered ---

  predicate Plain(t: string) {
    '{' !in t
  }

  lemma PlainIsFree(t: string)
    requires Plain(t)
    ensures !Contains(t, PLACEHOLDER) && Bordered(t)
  {
    NotContainedWithoutFirst(t, PLACEHOLDER);
  }

  lemma OccursAfterPlain(a: string, b: string, k: int)
    requires Plain(a) && OccursAt(a + b, PLACEHOLDER, k)
    ensures k >= |a| && OccursAt(b, PLACEHOLDER, k - |a|)
  {
    var s := a + b;
    assert s[k] == s[k..k + |PLACEHOLDER|][0];
    assert forall i | 0 <= i < |a| :: s[i] == a[i] && a[i] in a;
    assert k >= |a|;
    assert s[k..k + |PLACEHOLDER|] == b[k - |a|..k - |a| + |PLACEHOLDER|];
  }

  lemma FreeAfterPlain(a: string, b: string)
    requires Plain(a) && !Contains(b, PLACEHOLDER)
    ensures !Contains(a + b, PLACEHOLDER)
  {
    if k :| 0 <= k <= |a + b| && OccursAt(a + b, PLACEHOLDER, k) {
      OccursAfterPlain(a, b, k);
    }
  }

  ghost predicate BorderedTexts(j: Json) {
    AllTexts(j, Bordered)
  }

  lemma PlainDocNames()
    ensures forall n | n in DOC_NAMES :: Plain(n)
  {
  }

  lemma PlainKeyNames()
    ensures forall n | n in VM_NAMES :: Plain(n)
    ensures forall n | n in JWK_NAMES :: Plain(n)
  {
  }

  lemma PlainParameterNames()
    ensures forall n | n in PARAMETER_NAMES :: Plain(n)
  {
  }

  lemma PlainConstants()
    ensures OnConstants(Plain)
  {
  }

  lemma FixedTextsArePlain()
    ensures OnNames(Plain) && OnConstants(Plain)
  {
    hide Plain;
    PlainDocNames();
    PlainKeyNames();
    PlainParameterNames();
    PlainConstants();
  }

  lemma FixedTextsAreBordered()
    ensures OnNames(Bordered) && OnConstants(Bordered)
  {
    hide Plain, Bordered;
    FixedTextsArePlain();
    forall t | Plain(t) ensures Bordered(t) {
      PlainIsFree(t);
    }
  }

  lemma PlainKey(c: Crypto, key: P256PublicKey)
    requires Lawful(c)
    ensures OnKey(c, key, Plain) && OnKey(c, key, Bordered)
  {
    assert !IsBase64Url('{');
    PlainIsFree(c.base64Url(key.x));
    PlainIsFree(c.base64Url(key.y));
  }

  // --- the placeholder DID and what is derived from it ---

  const DID_PREFIX := "did:tdw:"

  /** The placeholder DID with anything placeholder-free after its SCID. */
  function DidText(rest: string): string {
    DID_PREFIX + (PLACEHOLDER + (":" + rest))
  }

  lemma PlaceholderInDidText(rest: string, k: int)
    requires !Contains(rest, PLACEHOLDER) && OccursAt(DidText(rest), PLACEHOLDER, k)
    ensures k == |DID_PREFIX|
  {
    var tail := PLACEHOLDER + (":" + rest);
    OccursAfterPlain(DID_PREFIX, tail, k);
    assert tail == PLACEHOLDER + [':'] + rest;
    OccursBesideSeparator(PLACEHOLDER, ':', rest, PLACEHOLDER, k - |DID_PREFIX|);
  }

  lemma DidTextBordered(rest: string)
    requires !Contains(rest, PLACEHOLDER)
    ensures Bordered(DidText(rest))
  {
    var t := DidText(rest);
    assert t[|DID_PREFIX| - 1] == ':';
    forall k | 0 < k <= |t| && OccursAt(t, PLACEHOLDER, k) ensures !IsBase58(t[k - 1]) {
      PlaceholderInDidText(rest, k);
    }
  }

  lemma DidTextSubstituted(rest: string, scid: string)
    requires !Contains(rest, PLACEHOLDER)
    ensures ReplaceAll(DidText(rest), PLACEHOLDER, scid) == DID_PREFIX + (scid + (":" + rest))
  {
    hide ReplaceAll;
    var tail := ":" + rest;
    FreeAfterPlain(":", rest);
    ReplaceInFree(tail, PLACEHOLDER, scid);
    forall j | 0 <= j < |DID_PREFIX| ensures !OccursAt(DID_PREFIX + PLACEHOLDER, PLACEHOLDER, j) {
      if OccursAt(DID_PREFIX + PLACEHOLDER, PLACEHOLDER, j) {
        OccursAfterPlain(DID_PREFIX, PLACEHOLDER, j);
      }
    }
    ReplaceAtFirst(DID_PREFIX, PLACEHOLDER, tail, scid);
    assert DidText(rest) == DID_PREFIX + PLACEHOLDER + tail;
    assert DID_PREFIX + scid + tail == DID_PREFIX + (scid + tail);
  }

  lemma PlaceholderSubstituted(scid: string)
    ensures ReplaceAll(PLACEHOLDER, PLACEHOLDER, scid) == scid
    ensures Bordered(PLACEHOLDER)
  {
    assert "" + PLACEHOLDER + "" == PLACEHOLDER;
    ReplaceAtFirst("", PLACEHOLDER, "", scid);
    assert "" + scid + "" == scid;
    forall k | 0 < k <= |PLACEHOLDER| ensures !OccursAt(PLACEHOLDER, PLACEHOLDER, k) {
    }
  }

  /** Domain and path as they follow the SCID in a DID. */
  function Remainder(domain: string, path: Option<string>): string {
    if path.Some? then domain + ":" + path.value else domain
  }

  lemma PlaceholderDidText(domain: string, path: Option<string>, scid: string)
    ensures Did.Did(Did.Tdw, None, domain, path).ToString() == DidText(Remainder(domain, path))
    ensures Did.Did(Did.Tdw, Some(scid), domain, path).ToString()
         == DID_PREFIX + (scid + (":" + Remainder(domain, path)))
  {
    assert PLACEHOLDER + ":" + Remainder(domain, path) == PLACEHOLDER + (":" + Remainder(domain, path));
    assert scid + ":" + Remainder(domain, path) == scid + (":" + Remainder(domain, path));
  }

  // --- the DID document of the preliminary entry ---

  lemma DidUrlBordered(rest: string, fragment: string)
    requires !Contains(rest, PLACEHOLDER) && Plain(fragment)
    ensures Bordered(DidText(rest) + "#" + fragment)
  {
    var longer := rest + ['#'] + fragment;
    PlainIsFree(fragment);
    NotContainedBesideSeparator(rest, '#', fragment, PLACEHOLDER);
    assert DidText(rest) + "#" + fragment == DidText(longer);
    DidTextBordered(longer);
  }

  lemma BorderedDocument(c: Crypto, rest: string, authentication: P256PublicKey, assertion: P256PublicKey)
    requires Lawful(c) && !Contains(rest, PLACEHOLDER)
    ensures BorderedTexts(DocToJson(c, NewGenesis(c, DidText(rest), authentication, assertion)))
  {
    FixedTextsAreBordered();
    PlainKey(c, authentication);
    PlainKey(c, assertion);
    DidTextBordered(rest);
    DidUrlBordered(rest, AUTHENTICATION_KID);
    DidUrlBordered(rest, ASSERTION_KID);
    DocumentTexts(c, DidText(rest), authentication, assertion, Bordered);
  }

  lemma DocNamesAreFree(c: Crypto, doc: DidDoc)
    ensures forall name | name in DocToJson(c, doc).members :: !Contains(name, PLACEHOLDER)
  {
    hide DocMember, Plain, Contains;
    FixedTextsArePlain();
    NamedIn(Plain);
    forall name | name in DocToJson(c, doc).members ensures !Contains(name, PLACEHOLDER) {
      PlainIsFree(name);
    }
  }

  lemma SubstitutedDocumentId(c: Crypto, doc: DidDoc, scid: string)
    ensures var v := ReplaceStrings(DocToJson(c, doc), PLACEHOLDER, scid);
            v.GetStr("id") == Some(ReplaceAll(doc.id, PLACEHOLDER, scid))
  {
    hide ReplaceAll, DocToJson, Contains;
    var m := DocToJson(c, doc).members;
    DocNamesAreFree(c, doc);
    PrintedDocMember(c, doc, "id");
    ReplaceInMembers(m, PLACEHOLDER, scid);
    assert m["id"] == Str(doc.id);
    assert ReplaceStrings(m["id"], PLACEHOLDER, scid) == Str(ReplaceAll(doc.id, PLACEHOLDER, scid));
  }

  // --- the parameters of the preliminary entry ---

  function ReplacedMember(v: Option<Json>, pat: string, rep: string): Option<Json>
    requires pat != ""
  {
    match v
    case Some(j) => Some(ReplaceStrings(j, pat, rep))
    case None => None
  }

  lemma SubstitutedMembers(p: LogParameters, q: LogParameters, pat: string, rep: string)
    requires pat != "" && forall name | name in p.ToJson().members :: !Contains(name, pat)
    requires forall name ::
               q.Member(name) == ReplacedMember(p.Member(name), pat, rep)
    ensures ReplaceStrings(p.ToJson(), pat, rep) == q.ToJson()
  {
    hide ReplaceStrings, Contains, LogParameters.Member;
    ReplaceInMembers(p.ToJson().members, pat, rep);
  }

  lemma ParameterNamesAreFree(p: LogParameters)
    ensures forall name | name in p.ToJson().members :: !Contains(name, PLACEHOLDER)
  {
    hide LogParameters.Member, Contains, Plain;
    FixedTextsArePlain();
    NamedIn(Plain);
    forall name | name in p.ToJson().members ensures !Contains(name, PLACEHOLDER) {
      assert name in PARAMETER_NAMES;
      PlainIsFree(name);
    }
  }

  lemma SubstitutedParameters(mk: string, scid: string)
    requires Plain(mk)
    ensures ReplaceStrings(GenesisParameters(PLACEHOLDER, mk).ToJson(), PLACEHOLDER, scid)
            == GenesisParameters(scid, mk).ToJson()
  {
    assert PLACEHOLDER != "";
    hide *;
    var p, q := GenesisParameters(PLACEHOLDER, mk), GenesisParameters(scid, mk);
    ParameterNamesAreFree(p);
    forall name
      ensures q.Member(name) == ReplacedMember(p.Member(name), PLACEHOLDER, scid)
    {
      SubstitutedMember(mk, scid, name);
    }
    SubstitutedMembers(p, q, PLACEHOLDER, scid);
  }

  lemma SubstitutedMember(mk: string, scid: string, name: string)
    requires Plain(mk)
    ensures var p, q := GenesisParameters(PLACEHOLDER, mk), GenesisParameters(scid, mk);
            q.Member(name) == ReplacedMember(p.Member(name), PLACEHOLDER, scid)
  {
    hide ReplaceAll;
    PlaceholderSubstituted(scid);
    PlainIsFree(mk);
    PlainIsFree("did:tdw:0.3");
    ReplaceInFree(mk, PLACEHOLDER, scid);
    ReplaceInFree("did:tdw:0.3", PLACEHOLDER, scid);
    var keys := ReplaceStrings(Arr(Strings([mk])), PLACEHOLDER, scid);
    var items := Strings([mk]);
    assert ReplaceStrings(items[0], PLACEHOLDER, scid) == items[0];
    assert keys.items[0] == ReplaceStrings(items[0], PLACEHOLDER, scid);
    assert keys.items == Strings([mk]);
  }

  // --- acceptance ---

  lemma MultikeyIsPlain(tool: Tool, keys: KeySet)
    requires LawfulTool(tool)
    ensures Plain(AuthorizedMultikey(tool, keys)) && '#' !in AuthorizedMultikey(tool, keys)
  {
    assert !IsBase58('{') && !IsBase58('#');
    assert forall ch | ch in AuthorizedMultikey(tool, keys) :: ch == 'z' || IsBase58(ch);
  }

  /** A proof made with the keys of a snapshot passes exactly where the multikey of that snapshot is authorized. */
  lemma SignedBySnapshot(tool: Tool, e: LogEntry, signer: KeySet, purpose: Proof.ProofPurpose, versionId: string,
                         time: string, keys: seq<string>)
    requires LawfulTool(tool) && e.state.Value?
    requires e.proofs == [SignedProof(tool, signer, e.state.doc, purpose, versionId, time)]
    ensures SignedByOneOf(tool.crypto, e, keys) <==> AuthorizedMultikey(tool, signer) in keys
  {
    hide Multikey, DecodeMultikey, DecodeMultibase, ParseDidKeyVm;
    var c, mk := tool.crypto, AuthorizedMultikey(tool, signer);
    var config := Proof.ProofConfig("did:key:" + (mk + "#" + mk), purpose, versionId, time);
    var proof := Proof.Sign(c, signer.authorized, e.state.doc, config);
    var signature := c.edSign(signer.authorized, EddsaJcsHash(c, e.state.doc, Proof.ConfigToJson(config)));
    Proof.OptionsOfPrintedProof(proof);
    MultikeyIsPlain(tool, signer);
    MultikeyRoundTrip(c, c.edPublic(signer.authorized));
    MultibaseRoundTrip(c, signature);
    hide Proof.ProofToJson, Proof.ConfigToJson;
    assert SignedBy(c, e, mk, c.edPublic(signer.authorized), signature);
    DidKeyVm(config.verificationMethod, mk);
    forall multikey, key, other | SignedBy(c, e, multikey, key, other) ensures multikey == mk {
      DidKeyVm(config.verificationMethod, multikey);
    }
  }

  function PlaceholderDocument(tool: Tool, rest: string, keys: KeySet): Json {
    KeyDocument(tool, DidText(rest), keys)
  }

  lemma PreliminaryShape(tool: Tool, rest: string, keys: KeySet, now: string)
    ensures PreliminaryEntry(tool, Tdw03, DidText(rest), keys, now)
            == GenesisBody(PLACEHOLDER, now, AuthorizedMultikey(tool, keys), PlaceholderDocument(tool, rest, keys))
  {
    hide DocToJson, LogParameters.ToJson, DidText;
    var v := PreliminaryEntry(tool, Tdw03, DidText(rest), keys, now);
    var b := GenesisBody(PLACEHOLDER, now, AuthorizedMultikey(tool, keys), PlaceholderDocument(tool, rest, keys));
    assert v.items == b.items;
  }

  lemma SubstitutedShape(now: string, mk: string, document: Json, scid: string)
    requires Plain(now) && Plain(mk)
    ensures ReplaceStrings(GenesisBody(PLACEHOLDER, now, mk, document), PLACEHOLDER, scid)
            == GenesisBody(scid, now, mk, ReplaceStrings(document, PLACEHOLDER, scid))
  {
    hide ReplaceAll, LogParameters.ToJson;
    var b := GenesisBody(PLACEHOLDER, now, mk, document);
    PlaceholderSubstituted(scid);
    PlainIsFree(now);
    ReplaceInFree(now, PLACEHOLDER, scid);
    SubstitutedParameters(mk, scid);
    SubstitutedState(document, scid);
    var r := ReplaceStrings(b, PLACEHOLDER, scid);
    assert r.items[0] == ReplaceStrings(b.items[0], PLACEHOLDER, scid) == Str(scid);
    assert r.items[1] == ReplaceStrings(b.items[1], PLACEHOLDER, scid) == Str(now);
    assert r.items[2] == ReplaceStrings(b.items[2], PLACEHOLDER, scid);
    assert r.items[3] == ReplaceStrings(b.items[3], PLACEHOLDER, scid);
    assert r.items == GenesisBody(scid, now, mk, ReplaceStrings(document, PLACEHOLDER, scid)).items;
  }

  lemma SubstitutedState(document: Json, scid: string)
    ensures ReplaceStrings(Obj(map["value" := document]), PLACEHOLDER, scid)
            == Obj(map["value" := ReplaceStrings(document, PLACEHOLDER, scid)])
  {
    hide ReplaceAll, Contains, ReplaceStrings;
    PlainIsFree("value");
    ReplacedObject(map["value" := document], map["value" := ReplaceStrings(document, PLACEHOLDER, scid)], PLACEHOLDER,
                   scid);
  }

  lemma BorderedBody(tool: Tool, rest: string, keys: KeySet, now: string)
    requires LawfulTool(tool) && Plain(now) && !Contains(rest, PLACEHOLDER)
    ensures BorderedTexts(GenesisBody(PLACEHOLDER, now, AuthorizedMultikey(tool, keys),
                                      PlaceholderDocument(tool, rest, keys)))
  {
    var document, mk := PlaceholderDocument(tool, rest, keys), AuthorizedMultikey(tool, keys);
    FixedTextsAreBordered();
    MultikeyIsPlain(tool, keys);
    PlainIsFree(mk);
    PlainIsFree(now);
    PlaceholderSubstituted("");
    BorderedDocument(tool.crypto, rest, tool.p256Public(keys.authentication), tool.p256Public(keys.assertion));
    hide DocToJson, LogParameters.ToJson, DidText, Bordered, AllTexts;
    BodyTexts(PLACEHOLDER, now, mk, document, Bordered);
  }

  /** The typed genesis entry that a created line parses to, up to normalisation. */
  function TypedGenesis(versionId: string, scid: string, now: string, mk: string, document: Json, proof: Json)
    : LogEntry
  {
    LogEntry(Tdw03, versionId, now, GenesisParameters(scid, mk), Value(document), [proof])
  }

  /** The entry is hashed in the form in which its SCID was substituted. */
  lemma GenesisHashingForm(versionId: string, scid: string, now: string, mk: string, document: Json, proof: Json)
    ensures var e := TypedGenesis(versionId, scid, now, mk, document, proof);
            HashingForm(e.Normalise(), scid) == GenesisBody(scid, now, mk, document)
    ensures WithProof(WithVersionId(GenesisBody(scid, now, mk, document), versionId, Tdw03), proof, Tdw03)
            == TypedGenesis(versionId, scid, now, mk, document, proof).ToJson()
  {
    var e := TypedGenesis(versionId, scid, now, mk, document, proof);
    ParsePrintedEntry(e);
    hide LogParameters.ToJson;
    assert HashingForm(e.Normalise(), scid).items == GenesisBody(scid, now, mk, document).items;
    assert WithProof(WithVersionId(GenesisBody(scid, now, mk, document), versionId, Tdw03), proof, Tdw03).items
           == e.ToJson().items;
  }

  lemma ScidText(tool: Tool, v: Json)
    requires LawfulTool(tool)
    ensures HashLogEntry(tool.crypto, v) != "" && AllBase58(HashLogEntry(tool.crypto, v))
  {
  }

  /** The SCID does not already occur in the entry it is derived from. */
  predicate ScidIsFresh(tool: Tool, prelim: Json) {
    forall t | t in Texts(prelim) :: !Contains(t, HashLogEntry(tool.crypto, prelim))
  }

  /** What `create` signs and writes, spelled out. */
  lemma CreatedShape(tool: Tool, domain: string, path: Option<string>, keys: KeySet, now: string, created: Created)
    requires LawfulTool(tool) && CreatedEntry(tool, Tdw03, domain, path, keys, now) == Ok(created)
    requires Plain(now)
    ensures var rest, mk := Remainder(domain, path), AuthorizedMultikey(tool, keys);
      var prelim := PreliminaryEntry(tool, Tdw03, DidText(rest), keys, now);
      var scid := HashLogEntry(tool.crypto, prelim);
      var document := ReplaceStrings(PlaceholderDocument(tool, rest, keys), PLACEHOLDER, scid);
      var versionId := "1-" + HashLogEntry(tool.crypto, GenesisBody(scid, now, mk, document));
      && ReplaceStrings(prelim, PLACEHOLDER, scid) == GenesisBody(scid, now, mk, document)
      && created.did == Did.Did(Did.Tdw, Some(scid), domain, path) && created.did.Valid()
      && created.entry == TypedGenesis(versionId, scid, now, mk, document,
           SignedProof(tool, keys, document, Proof.Authentication, versionId, now)).ToJson()
  {
    var rest, mk := Remainder(domain, path), AuthorizedMultikey(tool, keys);
    hide Contains, PreliminaryEntry, PlaceholderDocument, ReplaceStrings, HashLogEntry, SignedProof,
         LogParameters.ToJson, DidText;
    PlaceholderDidText(domain, path, "");
    PreliminaryShape(tool, rest, keys, now);
    var prelim := PreliminaryEntry(tool, Tdw03, DidText(rest), keys, now);
    var scid := HashLogEntry(tool.crypto, prelim);
    var document := ReplaceStrings(PlaceholderDocument(tool, rest, keys), PLACEHOLDER, scid);
    MultikeyIsPlain(tool, keys);
    SubstitutedShape(now, mk, PlaceholderDocument(tool, rest, keys), scid);
    var versionId := "1-" + HashLogEntry(tool.crypto, GenesisBody(scid, now, mk, document));
    assert DocumentIn(WithVersionId(GenesisBody(scid, now, mk, document), versionId, Tdw03), Tdw03) == document;
    GenesisHashingForm(versionId, scid, now, mk, document,
                       SignedProof(tool, keys, document, Proof.Authentication, versionId, now));
  }

  /** The created entry parses, and the log of just this entry is accepted for the created DID. */
  lemma CreatedEntryIsAccepted(tool: Tool, domain: string, path: Option<string>, keys: KeySet, now: string,
                               created: Created)
    returns (e: LogEntry)
    requires LawfulTool(tool) && CreatedEntry(tool, Tdw03, domain, path, keys, now) == Ok(created)
    requires Plain(now) && !Contains(Remainder(domain, path), PLACEHOLDER)
    requires ScidIsFresh(tool, PreliminaryEntry(tool, Tdw03, DidText(Remainder(domain, path)), keys, now))
    ensures EntryFromJson(created.entry) == Ok(e) && created.entry == e.ToJson()
    ensures e.parameters.format == e.format == Tdw03
    ensures Accepted(tool.crypto, [e], created.did) && created.did.scid.Some?
    ensures e.parameters.updateKeys == Some([AuthorizedMultikey(tool, keys)]) && e.versionTime == now
    ensures e.parameters.deactivated.None?
    ensures e.state == Value(ReplaceStrings(PlaceholderDocument(tool, Remainder(domain, path), keys), PLACEHOLDER,
                                            created.did.scid.value))
    ensures ProofNamesEntry(e)
  {
    var c, rest, mk := tool.crypto, Remainder(domain, path), AuthorizedMultikey(tool, keys);
    var prelim := PreliminaryEntry(tool, Tdw03, DidText(rest), keys, now);
    var scid := HashLogEntry(c, prelim);
    var placeholderDocument := PlaceholderDocument(tool, rest, keys);
    var document := ReplaceStrings(placeholderDocument, PLACEHOLDER, scid);
    var body := GenesisBody(scid, now, mk, document);
    var versionId := "1-" + HashLogEntry(c, body);
    var proof := SignedProof(tool, keys, document, Proof.Authentication, versionId, now);
    var typed := TypedGenesis(versionId, scid, now, mk, document, proof);
    CreatedShape(tool, domain, path, keys, now, created);
    ParsePrintedEntry(typed);
    e := typed.Normalise();

    GenesisHashingForm(versionId, scid, now, mk, document, proof);
    ScidText(tool, prelim);
    PreliminaryShape(tool, rest, keys, now);
    BorderedBody(tool, rest, keys, now);
    ValueSubstitutionUndone(prelim, scid);
    GenesisDocumentId(tool, rest, keys, scid);
    PlaceholderDidText(domain, path, scid);
    SignedBySnapshot(tool, e, keys, Proof.Authentication, versionId, now, [mk]);
    hide PreliminaryEntry, PlaceholderDocument, ReplaceStrings, HashLogEntry, SignedProof, LogParameters.ToJson,
         DidText, HashingForm, SignedByOneOf, GenesisBody, BorderedTexts, Contains;
    SingleEntryAccepted(c, e, created.did, body, [mk]);
    SignedProofNamesEntry(tool, e, keys, document);
  }

  lemma SingleEntryAccepted(c: Crypto, e: LogEntry, did: Did.Did, body: Json, keys: seq<string>)
    requires e.format == Tdw03 && did.scid.Some? && did.scid.value != ""
    requires DocumentIdIs(e, did.ToString())
    requires e.versionId == "1-" + HashLogEntry(c, body)
    requires HashingForm(e, did.scid.value) == body
    requires did.scid.value == HashLogEntry(c, ReplaceStrings(body, did.scid.value, PLACEHOLDER))
    requires e.parameters.updateKeys == Some(keys) && SignedByOneOf(c, e, keys)
    ensures Accepted(c, [e], did)
  {
    hide ReplaceStrings, HashLogEntry, HashingForm, SignedByOneOf, DocumentIdIs;
    assert Decimal(1) == "1";
    assert HashInput([e], did, 0) == body;
    assert EntryOk(c, [e], did, 0);
  }

  lemma GenesisDocumentId(tool: Tool, rest: string, keys: KeySet, scid: string)
    requires !Contains(rest, PLACEHOLDER)
    ensures ReplaceStrings(PlaceholderDocument(tool, rest, keys), PLACEHOLDER, scid).GetStr("id")
            == Some(DID_PREFIX + (scid + (":" + rest)))
  {
    hide DidText, DocToJson, ReplaceAll, ReplaceStrings;
    SubstitutedDocumentId(tool.crypto,
      NewGenesis(tool.crypto, DidText(rest), tool.p256Public(keys.authentication), tool.p256Public(keys.assertion)),
      scid);
    DidTextSubstituted(rest, scid);
  }

  // --- a URL free of the placeholder ---

  lemma {:induction false} PiecesAreFree(s: string, c: char)
    requires !Contains(s, PLACEHOLDER)
    ensures forall p | p in Split(s, c) :: !Contains(p, PLACEHOLDER)
    decreases |s|
  {
    match IndexOf(s, c)
    case None =>
    case Some(i) =>
      NotContainedInSlice(s, 0, i, PLACEHOLDER);
      NotContainedInSlice(s, i + 1, |s|, PLACEHOLDER);
      assert s[0..i] == s[..i] && s[i + 1..|s|] == s[i + 1..];
      PiecesAreFree(s[i + 1..], c);
  }

  lemma {:induction false} JoinedPiecesAreFree(parts: seq<string>)
    requires forall p | p in parts :: !Contains(p, PLACEHOLDER)
    ensures !Contains(Join(parts, ":"), PLACEHOLDER)
  {
    if |parts| > 1 {
      assert parts[0] in parts;
      JoinedPiecesAreFree(parts[1..]);
      NotContainedBesideSeparator(parts[0], ':', Join(parts[1..], ":"), PLACEHOLDER);
    } else if parts == [] {
      PlainIsFree("");
    }
  }

  lemma EncodedHostIsFree(host: string)
    requires !Contains(host, PLACEHOLDER)
    ensures !Contains(DidUrl.EncodeHost(host), PLACEHOLDER)
  {
    match SplitOnce(host, ':')
    case None =>
    case Some((name, port)) =>
      assert name == host[0..|name|] && port == host[|name| + 1..|host|];
      NotContainedInSlice(host, 0, |name|, PLACEHOLDER);
      NotContainedInSlice(host, |name| + 1, |host|, PLACEHOLDER);
      FreeAfterPlain("3A", port);
      NotContainedBesideSeparator(name, '%', "3A" + port, PLACEHOLDER);
      assert name + ['%'] + ("3A" + port) == name + DidUrl.PORT_ESCAPE + port;
  }

  lemma UrlParts(url: string)
    requires DidUrl.HostAndPath(url).Ok?
    ensures var (host, path) := DidUrl.HostAndPath(url).value;
            var start := |DidUrl.SCHEME|;
            && start + |host| <= |url| && host == url[start..start + |host|]
            && |path| <= |url| && path == url[|url| - |path|..]
  {
    hide DidUrl.HostAndPath;
    var (host, path) := DidUrl.HostAndPath(url).value;
    var start, tail := DidUrl.SCHEME, host + "/" + path;
    if url == start + (host + "/" + path) {
      assert url == start + host + "/" + path;
    }
  }

  lemma PartsAreFree(whole: string, start: nat, head: string, tail: string, pat: string)
    requires !Contains(whole, pat)
    requires start + |head| <= |whole| && head == whole[start..start + |head|]
    requires |tail| <= |whole| && tail == whole[|whole| - |tail|..]
    ensures !Contains(head, pat) && !Contains(tail, pat)
  {
    hide Contains;
    assert tail == whole[|whole| - |tail|..|whole|];
    NotContainedInSlice(whole, start, start + |head|, pat);
    NotContainedInSlice(whole, |whole| - |tail|, |whole|, pat);
  }

  lemma UrlPartsAreFree(url: string)
    requires !Contains(url, PLACEHOLDER) && DidUrl.HostAndPath(url).Ok?
    ensures var (host, path) := DidUrl.HostAndPath(url).value;
            !Contains(host, PLACEHOLDER) && !Contains(path, PLACEHOLDER)
  {
    hide *;
    UrlParts(url);
    var (host, path) := DidUrl.HostAndPath(url).value;
    PartsAreFree(url, |DidUrl.SCHEME|, host, path, PLACEHOLDER);
  }

  /** Neither the port escape nor the joined path segments can make up a placeholder. */
  lemma ComponentsAreFree(url: string)
    requires !Contains(url, PLACEHOLDER) && DidUrl.UrlToDidComponents(url).Ok?
    ensures var (domain, path) := DidUrl.UrlToDidComponents(url).value;
            !Contains(Remainder(domain, path), PLACEHOLDER)
  {
    hide Contains, DidUrl.HostAndPath, DidUrl.EncodeHost, Split, NonEmpty, Join;
    var (host, rawPath) := DidUrl.HostAndPath(url).value;
    var (domain, path) := DidUrl.UrlToDidComponents(url).value;
    UrlPartsAreFree(url);
    EncodedHostIsFree(host);
    PiecesAreFree(rawPath, '/');
    NonEmptyPieces(Split(rawPath, '/'));
    if path.Some? {
      JoinedPiecesAreFree(DidUrl.WithoutIndex(DidUrl.Segments(rawPath)));
      NotContainedBesideSeparator(domain, ':', path.value, PLACEHOLDER);
    }
  }
}
