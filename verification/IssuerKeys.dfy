/**
 Where the keys of `trust verify` come from: the newest entry of an issuer's log, the first verification
 method with the key id, and the text that was signed (swiyu-didtool/src/cmd/trust/verify.rs).
 */
module IssuerKeys {
  import opened Basics
  import opened Text
  import opened StatusLists
  import opened TrustStatements
  import opened StatementFields
  import opened TrustVerify
  import opened Wire
  import Did
  import DidDoc
  import DidUrl
  import Jsonl
  import LogEntry

  // --- the document ---

  /** The answer for a DID's log ends in an entry with the document. */
  ghost predicate NewestDocument(env: Env, iss: string, did: Did.Did, text: string, entries: seq<LogEntry.LogEntry>,
                                 e: LogEntry.LogEntry, doc: DidDoc.DidDoc) {
    && Did.FromStr(iss) == Ok(did)
    && env.fetch(DidUrl.LogUrl(did)) == Ok(Found(text))
    && Jsonl.FromJsonl(env.t, text) == Ok(entries + [e])
    && e.state.Value? && DidDoc.DocFromJson(env.c, e.state.doc) == Ok(doc)
  }

  ghost predicate CurrentDocument(env: Env, iss: string, doc: DidDoc.DidDoc) {
    exists did, text, entries, e :: NewestDocument(env, iss, did, text, entries, e, doc)
  }

  /** An issuer's document is that of the last entry of its log, however many come before it. */
  lemma IssuerDocIsNewest(env: Env, iss: string, doc: DidDoc.DidDoc)
    ensures IssuerDoc(env, iss) == Ok(doc) <==> CurrentDocument(env, iss, doc)
  {
    hide Did.FromStr, DidUrl.LogUrl, Jsonl.FromJsonl, DidDoc.DocFromJson;
    if IssuerDoc(env, iss) == Ok(doc) {
      var did := Did.FromStr(iss).value;
      var text := env.fetch(DidUrl.LogUrl(did)).value.text;
      var all := Jsonl.FromJsonl(env.t, text).value;
      var entries, e := all[..|all| - 1], all[|all| - 1];
      assert all == entries + [e];
      assert NewestDocument(env, iss, did, text, entries, e, doc);
    }
    forall did, text, entries, e | NewestDocument(env, iss, did, text, entries, e, doc)
      ensures IssuerDoc(env, iss) == Ok(doc)
    {
      assert (entries + [e])[|entries|] == e;
    }
  }

  // --- the key ---

  /** The first verification method with the id has a P-256 JWK that decodes to the key. */
  predicate ListsKey(env: Env, doc: DidDoc.DidDoc, kid: string, i: nat, key: Bytes) {
    var methods := doc.verificationMethod;
    && i < |methods| && methods[i].id == kid && (forall j | 0 <= j < i :: methods[j].id != kid)
    && methods[i].publicKey.Jwk?
    && methods[i].publicKey.jwk.EC? && methods[i].publicKey.jwk.crv == "P-256"
    && env.p256Key(methods[i].publicKey.jwk) == Some(key)
  }

  lemma {:induction false} FirstMethod(methods: seq<DidDoc.VerificationMethod>, kid: string, i: nat)
    requires i < |methods| && methods[i].id == kid && forall j | 0 <= j < i :: methods[j].id != kid
    ensures FindMethod(methods, kid) == Some(methods[i])
  {
    if i > 0 {
      assert methods[0].id != kid;
      FirstMethod(methods[1..], kid, i - 1);
    }
  }

  lemma {:induction false} FoundMethod(methods: seq<DidDoc.VerificationMethod>, kid: string) returns (i: nat)
    requires FindMethod(methods, kid).Some?
    ensures i < |methods| && methods[i].id == kid && forall j | 0 <= j < i :: methods[j].id != kid
    ensures FindMethod(methods, kid) == Some(methods[i])
  {
    if methods[0].id == kid {
      i := 0;
    } else {
      i := FoundMethod(methods[1..], kid);
      i := i + 1;
    }
  }

  lemma KeyIsExact(env: Env, doc: DidDoc.DidDoc, kid: string, key: Bytes)
    ensures FindVerifyingKey(env, doc, kid) == Ok(key) <==> exists i :: ListsKey(env, doc, kid, i, key)
  {
    if FindVerifyingKey(env, doc, kid) == Ok(key) {
      var i := FoundMethod(doc.verificationMethod, kid);
      assert ListsKey(env, doc, kid, i, key);
    }
    forall i: nat | ListsKey(env, doc, kid, i, key) ensures FindVerifyingKey(env, doc, kid) == Ok(key) {
      FirstMethod(doc.verificationMethod, kid, i);
    }
  }

  // --- the signature ---

  /** A 64-byte signature that verifies under a key which the newest document of the DID lists for the key id. */
  ghost predicate VerifiesUnder(env: Env, did: string, kid: string, input: string, signature: Bytes,
                                doc: DidDoc.DidDoc, i: nat, key: Bytes) {
    && CurrentDocument(env, did, doc) && ListsKey(env, doc, kid, i, key)
    && |signature| == 64 && env.p256Verify(key, input, signature)
  }

  lemma SignedUnderIsExact(env: Env, did: string, kid: string, input: string, signature: Bytes)
    ensures SignedUnder(env, did, kid, input, signature) <==>
            exists doc, i, key :: VerifiesUnder(env, did, kid, input, signature, doc, i, key)
  {
    hide IssuerDoc, FindVerifyingKey, CurrentDocument, ListsKey;
    forall doc {
      IssuerDocIsNewest(env, did, doc);
    }
    if IssuerDoc(env, did).Ok? {
      var doc := IssuerDoc(env, did).value;
      forall key {
        KeyIsExact(env, doc, kid, key);
      }
      if SignedUnder(env, did, kid, input, signature) {
        var key := FindVerifyingKey(env, doc, kid).value;
        var i :| ListsKey(env, doc, kid, i, key);
        assert VerifiesUnder(env, did, kid, input, signature, doc, i, key);
      }
    }
    forall doc, i: nat, key | VerifiesUnder(env, did, kid, input, signature, doc, i, key)
      ensures SignedUnder(env, did, kid, input, signature)
    {
      KeyIsExact(env, doc, kid, key);
    }
  }

  lemma KidDidIsExact(kid: string, did: string)
    ensures KidDid(kid) == Some(did) <==> '#' !in did && exists fragment :: kid == did + "#" + fragment
  {
    if KidDid(kid) == Some(did) {
      assert kid == did + "#" + SplitOnce(kid, '#').value.1;
    }
    forall fragment | '#' !in did && kid == did + "#" + fragment ensures KidDid(kid) == Some(did) {
      SplitOnceAt(did, '#', fragment);
    }
  }

  /** Trustworthy, spelled out to the newest document of the DID in front of the `#` of the key id. */
  lemma TrustworthyIsExact(env: Env, expected: string, now: u64, stmt: TrustStatement)
    ensures Trustworthy(env, expected, now, stmt) <==>
      && stmt.iss == expected && stmt.alg == "ES256" && Current(stmt, now) && NotRevoked(env, expected, stmt)
      && exists did, doc, i, key :: KidDid(stmt.kid) == Some(did)
           && VerifiesUnder(env, did, stmt.kid, stmt.signingInput, stmt.signature, doc, i, key)
  {
    hide SignedUnder, VerifiesUnder, Current, NotRevoked, KidDid;
    if KidDid(stmt.kid).Some? {
      SignedUnderIsExact(env, KidDid(stmt.kid).value, stmt.kid, stmt.signingInput, stmt.signature);
    }
  }

  // --- status list tokens ---

  ghost predicate ListTokenOf(w: Wire, jwt: string, token: ListToken, h: string, p: string, s: string) {
    && IsToken(jwt, h, p, s) && token.signingInput == h + "." + p
    && DecodeJson(w, h) == Ok(token.header) && DecodeJson(w, p) == Ok(token.payload)
    && w.decode64(s) == Some(token.signature)
  }

  lemma ListTokenIsExact(w: Wire, jwt: string, token: ListToken)
    ensures DecodeListToken(w, jwt) == Ok(token) <==> exists h, p, s :: ListTokenOf(w, jwt, token, h, p, s)
  {
    hide Split, DecodeJson;
    if DecodeListToken(w, jwt) == Ok(token) {
      var segs := Split(jwt, '.');
      assert segs == [segs[0], segs[1], segs[2]];
      ThreeSegments(jwt, segs[0], segs[1], segs[2]);
      assert ListTokenOf(w, jwt, token, segs[0], segs[1], segs[2]);
    }
    forall h, p, s | ListTokenOf(w, jwt, token, h, p, s) ensures DecodeListToken(w, jwt) == Ok(token) {
      ThreeSegments(jwt, h, p, s);
    }
  }

  /**
   A status list is taken exactly from a token of the expected issuer: ES256, a key id of that issuer, a
   signature over the first two segments under the newest document, and a list of width 1 or 2.
   */
  lemma ListTokenIsIssuers(env: Env, expected: string, url: string, bits: u8, bytes: Bytes)
    ensures ListAt(env, expected, url) == Ok((bits, bytes)) <==>
            exists text, token, kid :: IssuersList(env, expected, url, bits, bytes, text, token, kid)
  {
    ListIsSignedByIssuer(env, expected, url, bits, bytes);
    hide *;
    forall text, token, kid {
      IssuersListIs(env, expected, url, bits, bytes, text, token, kid);
    }
  }

  lemma IssuersListIs(env: Env, expected: string, url: string, bits: u8, bytes: Bytes, text: string, token: ListToken,
                      kid: string)
    ensures IssuersList(env, expected, url, bits, bytes, text, token, kid) <==>
            ServesToken(env, expected, url, text, token, kid)
              && SignedUnder(env, expected, kid, token.signingInput, token.signature)
              && token.payload.Get("status_list").Some?
              && ListFromJson(env.w, token.payload.Get("status_list").value) == Ok((bits, bytes))
  {
    hide SignedUnder, VerifiesUnder, ListFromJson, ServesToken, ListAt;
    SignedUnderIsExact(env, expected, kid, token.signingInput, token.signature);
  }

  ghost predicate IssuersList(env: Env, expected: string, url: string, bits: u8, bytes: Bytes, text: string,
                              token: ListToken, kid: string) {
    && ServesToken(env, expected, url, text, token, kid)
    && (exists doc, i, key :: VerifiesUnder(env, expected, kid, token.signingInput, token.signature, doc, i, key))
    && token.payload.Get("status_list").Some?
    && ListFromJson(env.w, token.payload.Get("status_list").value) == Ok((bits, bytes))
  }
}
