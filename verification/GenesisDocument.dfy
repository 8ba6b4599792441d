/**
 The document that `did create` publishes: substituting the SCID into the document of the placeholder
 DID gives the document of the created DID, with the same keys.
 */
module GenesisDocument {
  import opened Text
  import opened Json
  import opened Crypto
  import opened Scid
  import opened PublicKeys
  import opened DidDoc
  import opened GenesisTexts
  import opened Genesis

  lemma PlainValueKept(j: Json, scid: string)
    requires AllTexts(j, Plain)
    ensures ReplaceStrings(j, PLACEHOLDER, scid) == j
  {
    hide ReplaceStrings, Contains, Texts;
    forall t | t in Texts(j) ensures !Contains(t, PLACEHOLDER) {
      PlainIsFree(t);
    }
    FreeValueKept(j, PLACEHOLDER, scid);
  }

  /** The DID with the SCID where the placeholder was. */
  function RealDid(rest: string, scid: string): string {
    DID_PREFIX + (scid + (":" + rest))
  }

  lemma SubstitutedUrl(rest: string, fragment: string, scid: string)
    requires !Contains(rest, PLACEHOLDER) && Plain(fragment)
    ensures ReplaceAll(DidText(rest) + "#" + fragment, PLACEHOLDER, scid) == RealDid(rest, scid) + "#" + fragment
  {
    hide ReplaceAll, Contains;
    var longer := rest + ['#'] + fragment;
    PlainIsFree(fragment);
    NotContainedBesideSeparator(rest, '#', fragment, PLACEHOLDER);
    assert DidText(rest) + "#" + fragment == DidText(longer);
    DidTextSubstituted(longer, scid);
    assert RealDid(rest, scid) + "#" + fragment == RealDid(longer, scid);
  }

  /** Members under plain names are substituted one by one. */
  lemma SubstitutedObject(before: map<string, Json>, after: map<string, Json>, scid: string)
    requires before.Keys == after.Keys && forall k | k in before :: Plain(k)
    requires forall k | k in before :: ReplaceStrings(before[k], PLACEHOLDER, scid) == after[k]
    ensures ReplaceStrings(Obj(before), PLACEHOLDER, scid) == Obj(after)
  {
    hide ReplaceStrings, Contains;
    forall k | k in before ensures !Contains(k, PLACEHOLDER) {
      PlainIsFree(k);
    }
    ReplacedObject(before, after, PLACEHOLDER, scid);
  }

  lemma SubstitutedMethodParts(c: Crypto, rest: string, scid: string, key: P256PublicKey, kid: string)
    requires Lawful(c) && Plain(kid) && !Contains(rest, PLACEHOLDER)
    ensures var before, after := KeyMethod(c, DidText(rest), key, kid), KeyMethod(c, RealDid(rest, scid), key, kid);
      && ReplaceStrings(Str(before.id), PLACEHOLDER, scid) == Str(after.id)
      && ReplaceStrings(Str(before.controller), PLACEHOLDER, scid) == Str(after.controller)
      && ReplaceStrings(Str(before.kind), PLACEHOLDER, scid) == Str(after.kind)
      && ReplaceStrings(JwkToJson(before.publicKey.jwk), PLACEHOLDER, scid) == JwkToJson(after.publicKey.jwk)
  {
    hide ReplaceAll, Contains, JwkToJson, DidText, RealDid, P256Jwk;
    SubstitutedUrl(rest, kid, scid);
    SubstitutedDid(rest, scid);
    PlainIsFree("JsonWebKey2020");
    ReplaceInFree("JsonWebKey2020", PLACEHOLDER, scid);
    FixedTextsArePlain();
    PlainKey(c, key);
    KeyTexts(c, key, kid, Plain);
    PlainValueKept(JwkToJson(P256Jwk(c, key, kid)), scid);
  }

  lemma SubstitutedDid(rest: string, scid: string)
    requires !Contains(rest, PLACEHOLDER)
    ensures ReplaceAll(DidText(rest), PLACEHOLDER, scid) == RealDid(rest, scid)
  {
    DidTextSubstituted(rest, scid);
  }

  lemma SubstitutedMethod(c: Crypto, rest: string, scid: string, key: P256PublicKey, kid: string)
    requires Lawful(c) && Plain(kid) && !Contains(rest, PLACEHOLDER)
    ensures ReplaceStrings(VmToJson(c, KeyMethod(c, DidText(rest), key, kid)), PLACEHOLDER, scid)
            == VmToJson(c, KeyMethod(c, RealDid(rest, scid), key, kid))
  {
    var before, after := KeyMethod(c, DidText(rest), key, kid), KeyMethod(c, RealDid(rest, scid), key, kid);
    SubstitutedMethodParts(c, rest, scid, key, kid);
    SubstitutedMembers(c, before, after, scid);
  }

  lemma SubstitutedMembers(c: Crypto, before: VerificationMethod, after: VerificationMethod, scid: string)
    requires before.publicKey.Jwk? && after.publicKey.Jwk?
    requires ReplaceStrings(Str(before.id), PLACEHOLDER, scid) == Str(after.id)
    requires ReplaceStrings(Str(before.controller), PLACEHOLDER, scid) == Str(after.controller)
    requires ReplaceStrings(Str(before.kind), PLACEHOLDER, scid) == Str(after.kind)
    requires ReplaceStrings(JwkToJson(before.publicKey.jwk), PLACEHOLDER, scid) == JwkToJson(after.publicKey.jwk)
    ensures ReplaceStrings(VmToJson(c, before), PLACEHOLDER, scid) == VmToJson(c, after)
  {
    hide ReplaceStrings, ReplaceAll, Contains, JwkToJson, Plain, Texts;
    FixedTextsArePlain();
    NamedIn(Plain);
    var m, n := VmToJson(c, before).members, VmToJson(c, after).members;
    forall k | k in VM_NAMES
      ensures k in m <==> k in n
      ensures k in m ==> ReplaceStrings(m[k], PLACEHOLDER, scid) == n[k]
    {
      PrintedVmMember(c, before, k);
      PrintedVmMember(c, after, k);
    }
    SubstitutedObject(m, n, scid);
  }

  lemma SubstitutedDocMembers(c: Crypto, before: DidDoc, after: DidDoc, scid: string)
    requires KeysOnly(before) && KeysOnly(after)
    requires ReplaceStrings(before.context, PLACEHOLDER, scid) == after.context
    requires ReplaceStrings(Str(before.id), PLACEHOLDER, scid) == Str(after.id)
    requires ReplaceStrings(Arr(PrintAll(before.verificationMethod, VmPrinter(c))), PLACEHOLDER, scid)
             == Arr(PrintAll(after.verificationMethod, VmPrinter(c)))
    requires ReplaceStrings(Arr(PrintAll(before.authentication, VmOrRefPrinter(c))), PLACEHOLDER, scid)
             == Arr(PrintAll(after.authentication, VmOrRefPrinter(c)))
    requires ReplaceStrings(Arr(PrintAll(before.assertionMethod, VmOrRefPrinter(c))), PLACEHOLDER, scid)
             == Arr(PrintAll(after.assertionMethod, VmOrRefPrinter(c)))
    ensures ReplaceStrings(DocToJson(c, before), PLACEHOLDER, scid) == DocToJson(c, after)
  {
    KeysOnlyMembers(c, before);
    KeysOnlyMembers(c, after);
    PlainKeyDocument();
    hide *;
    var m, n := DocToJson(c, before).members, DocToJson(c, after).members;
    forall k | k in m ensures Plain(k) && ReplaceStrings(m[k], PLACEHOLDER, scid) == n[k] {
      assert k in KEYS_ONLY_NAMES;
    }
    SubstitutedObject(m, n, scid);
  }

  lemma PlainKeyDocument()
    ensures forall n | n in KEYS_ONLY_NAMES :: Plain(n)
  {
  }

  /** The document of the placeholder DID becomes the document of the real DID. */
  lemma SubstitutedDocument(c: Crypto, rest: string, scid: string, authentication: P256PublicKey,
                            assertion: P256PublicKey)
    requires Lawful(c) && !Contains(rest, PLACEHOLDER)
    ensures ReplaceStrings(DocToJson(c, NewGenesis(c, DidText(rest), authentication, assertion)), PLACEHOLDER, scid)
            == DocToJson(c, NewGenesis(c, RealDid(rest, scid), authentication, assertion))
  {
    hide ReplaceStrings, ReplaceAll, Contains, DidText, RealDid, P256Jwk, VmToJson, Texts, PrintAll, DocToJson;
    var before, after := NewGenesis(c, DidText(rest), authentication, assertion),
                         NewGenesis(c, RealDid(rest, scid), authentication, assertion);
    SubstitutedMethodList(c, rest, scid, authentication, assertion);
    SubstitutedReference(c, rest, AUTHENTICATION_KID, scid);
    SubstitutedReference(c, rest, ASSERTION_KID, scid);
    SubstitutedDid(rest, scid);
    ReplacedString(DidText(rest), PLACEHOLDER, scid);
    FixedTextsArePlain();
    ContextTexts(Plain);
    PlainValueKept(CONTEXT, scid);
    SubstitutedDocMembers(c, before, after, scid);
  }

  lemma SubstitutedReference(c: Crypto, rest: string, kid: string, scid: string)
    requires !Contains(rest, PLACEHOLDER) && Plain(kid)
    ensures ReplaceStrings(Arr(PrintAll([Reference(DidText(rest) + "#" + kid)], VmOrRefPrinter(c))), PLACEHOLDER, scid)
            == Arr(PrintAll([Reference(RealDid(rest, scid) + "#" + kid)], VmOrRefPrinter(c)))
  {
    hide ReplaceStrings, ReplaceAll, Contains, DidText, RealDid;
    SubstitutedUrl(rest, kid, scid);
    ReplacedString(DidText(rest) + "#" + kid, PLACEHOLDER, scid);
    ReplacedArray(PrintAll([Reference(DidText(rest) + "#" + kid)], VmOrRefPrinter(c)),
                  PrintAll([Reference(RealDid(rest, scid) + "#" + kid)], VmOrRefPrinter(c)), PLACEHOLDER, scid);
  }

  lemma SubstitutedMethodList(c: Crypto, rest: string, scid: string, authentication: P256PublicKey,
                              assertion: P256PublicKey)
    requires Lawful(c) && !Contains(rest, PLACEHOLDER)
    ensures var before, after := NewGenesis(c, DidText(rest), authentication, assertion).verificationMethod,
                                 NewGenesis(c, RealDid(rest, scid), authentication, assertion).verificationMethod;
      ReplaceStrings(Arr(PrintAll(before, VmPrinter(c))), PLACEHOLDER, scid) == Arr(PrintAll(after, VmPrinter(c)))
  {
    hide ReplaceStrings, ReplaceAll, Contains, DidText, RealDid, P256Jwk, VmToJson;
    var before, after := NewGenesis(c, DidText(rest), authentication, assertion).verificationMethod,
                         NewGenesis(c, RealDid(rest, scid), authentication, assertion).verificationMethod;
    SubstitutedMethod(c, rest, scid, authentication, AUTHENTICATION_KID);
    SubstitutedMethod(c, rest, scid, assertion, ASSERTION_KID);
    assert before[0] == KeyMethod(c, DidText(rest), authentication, AUTHENTICATION_KID);
    assert before[1] == KeyMethod(c, DidText(rest), assertion, ASSERTION_KID);
    ReplacedArray(PrintAll(before, VmPrinter(c)), PrintAll(after, VmPrinter(c)), PLACEHOLDER, scid);
  }
}
