/**
 What a decoded trust statement says, read off its token: header and payload members, and the claims of
 those disclosures whose digests the signed payload lists (swiyu-core/src/truststatement/mod.rs).
 */
module StatementFields {
  import opened Basics
  import opened Text
  import opened Json
  import opened Wire
  import opened TrustStatements
  import StatusLists

  // --- the three segments of a signed token ---

  predicate IsToken(jwt: string, h: string, p: string, s: string) {
    '.' !in h && '.' !in p && '.' !in s && jwt == h + "." + p + "." + s
  }

  lemma TokenSegments(h: string, p: string, s: string)
    requires '.' !in h && '.' !in p && '.' !in s
    ensures Split(h + "." + p + "." + s, '.') == [h, p, s]
  {
    hide Split;
    assert h + "." + p + "." + s == h + ['.'] + (p + ['.'] + s);
    SplitFirst(h, '.', p + ['.'] + s);
    SplitFirst(p, '.', s);
    SplitOfFree(s);
  }

  lemma SplitOfFree(s: string)
    requires '.' !in s
    ensures Split(s, '.') == [s]
  {
  }

  lemma JoinOfThree(h: string, p: string, s: string)
    ensures Join([h, p, s], ".") == h + "." + p + "." + s
  {
    assert [h, p, s][1..] == [p, s] && [p, s][1..] == [s];
    assert Join([s], ".") == s && Join([p, s], ".") == p + "." + s;
  }

  lemma ThreeSegments(jwt: string, h: string, p: string, s: string)
    ensures Split(jwt, '.') == [h, p, s] <==> IsToken(jwt, h, p, s)
  {
    hide Split, Join;
    if IsToken(jwt, h, p, s) {
      TokenSegments(h, p, s);
    }
    if Split(jwt, '.') == [h, p, s] {
      SplitPieces(jwt, '.');
      assert h in [h, p, s] && p in [h, p, s] && s in [h, p, s];
      JoinSplit(jwt, '.');
      JoinOfThree(h, p, s);
    }
  }

  /** What is signed is the text of the first two segments, as it stands in the token. */
  ghost predicate HeadOf(w: Wire, jwt: string, head: Head, h: string, p: string, s: string, header: Json) {
    && IsToken(jwt, h, p, s) && head.signingInput == h + "." + p
    && DecodeJson(w, h) == Ok(header) && DecodeJson(w, p) == Ok(head.payload) && w.decode64(s) == Some(head.signature)
    && header.Get("kid") == Some(Str(head.kid)) && header.Get("alg") == Some(Str(head.alg))
  }

  lemma HeadIsExact(w: Wire, jwt: string, head: Head)
    ensures DecodeHead(w, jwt) == Ok(head) <==> exists h, p, s, header :: HeadOf(w, jwt, head, h, p, s, header)
  {
    hide Split, DecodeJson;
    if DecodeHead(w, jwt) == Ok(head) {
      var segs := Split(jwt, '.');
      assert segs == [segs[0], segs[1], segs[2]];
      ThreeSegments(jwt, segs[0], segs[1], segs[2]);
      assert HeadOf(w, jwt, head, segs[0], segs[1], segs[2], DecodeJson(w, segs[0]).value);
    }
    forall h, p, s, header | HeadOf(w, jwt, head, h, p, s, header) ensures DecodeHead(w, jwt) == Ok(head) {
      ThreeSegments(jwt, h, p, s);
    }
  }

  // --- members of the payload ---

  predicate TextOrUnknown(v: Option<Json>, text: string) {
    match v
    case Some(Str(s)) => text == s
    case _ => text == "(unknown)"
  }

  /** A time of the payload, which counts only if it fits 64 bits. */
  predicate Moment(v: Option<Json>, time: Option<u64>) {
    match v
    case Some(Int(n)) => time == if 0 <= n < U64_LIMIT then Some(n) else None
    case _ => time == None
  }

  function StatusMember(payload: Json): Option<Json> {
    match payload.Get("status")
    case None => None
    case Some(status) => status.Get("status_list")
  }

  predicate PointsTo(v: Json, pointer: StatusLists.StatusListPointer) {
    && v.Get("type") == Some(Str(pointer.kind)) && v.Get("idx") == Some(Int(pointer.idx))
    && v.Get("uri") == Some(Str(pointer.uri))
  }

  /** The fields that are not disclosed, each by the member it is read from. */
  predicate FieldsOf(head: Head, stmt: TrustStatement) {
    var payload := head.payload;
    && stmt.kid == head.kid && stmt.alg == head.alg
    && stmt.signingInput == head.signingInput && stmt.signature == head.signature
    && TextOrUnknown(payload.Get("vct"), stmt.vct) && TextOrUnknown(payload.Get("iss"), stmt.iss)
    && payload.Get("iat") == Some(Int(stmt.iat))
    && Moment(payload.Get("nbf"), stmt.nbf) && Moment(payload.Get("exp"), stmt.exp)
    && (StatusMember(payload).None? <==> stmt.status.None?)
    && (stmt.status.Some? ==> PointsTo(StatusMember(payload).value, stmt.status.value))
  }

  lemma AssembledFields(head: Head, claims: Claims, stmt: TrustStatement)
    requires Assemble(head, claims) == Ok(stmt)
    ensures FieldsOf(head, stmt)
    ensures stmt.entityName == claims.entityName && stmt.isStateActor == claims.isStateActor
  {
    hide StatusLists.PointerFromJson;
    if stmt.status.Some? {
      StatusLists.PointerIsExact(StatusMember(head.payload).value, stmt.status.value);
    }
  }

  /** An issue time that fits 64 bits, and no status member but a pointer. */
  ghost predicate Complete(head: Head) {
    && (exists iat: u64 :: head.payload.Get("iat") == Some(Int(iat)))
    && (StatusMember(head.payload).Some? ==>
        exists pointer: StatusLists.StatusListPointer :: PointsTo(StatusMember(head.payload).value, pointer))
  }

  lemma AssembledExactly(head: Head, claims: Claims)
    ensures Assemble(head, claims).Ok? <==> Complete(head)
  {
    hide StatusLists.PointerFromJson;
    if StatusMember(head.payload).Some? {
      var v := StatusMember(head.payload).value;
      forall pointer: StatusLists.StatusListPointer
        ensures StatusLists.PointerFromJson(v) == Ok(pointer) <==> PointsTo(v, pointer)
      {
        StatusLists.PointerIsExact(v, pointer);
      }
      assert StatusLists.PointerFromJson(v).Ok? ==> PointsTo(v, StatusLists.PointerFromJson(v).value);
    }
    if head.payload.GetU64("iat").Some? {
      assert head.payload.Get("iat") == Some(Int(head.payload.GetU64("iat").value));
    }
  }

  /** A token decodes exactly when its head does and is complete, and every further segment is a JSON array. */
  lemma StatementExists(w: Wire, text: string)
    ensures FromJwt(w, text).Ok? <==>
            && DecodeHead(w, Parts(text)[0]).Ok? && Complete(DecodeHead(w, Parts(text)[0]).value)
            && forall segment | segment in Parts(text)[1..] :: DecodesToArray(w, segment)
  {
    hide DecodeHead, Assemble, Complete, Parts, DecodesToArray, Fold, Authorised;
    if DecodeHead(w, Parts(text)[0]).Ok? {
      var head := DecodeHead(w, Parts(text)[0]).value;
      forall claims {
        AssembledExactly(head, claims);
      }
    }
  }

  // --- errors ---

  /** A segment that is not base64url or not JSON, by its name. */
  predicate SegmentFails(w: Wire, text: string, name: string, error: StatementError) {
    match DecodeJson(w, text)
    case Err(NoBase64) => error == BadBase64(name)
    case Err(NoJson) => error == BadJson(name)
    case Ok(_) => false
  }

  predicate HeadFails(w: Wire, jwt: string, error: StatementError) {
    var segs := Split(jwt, '.');
    if |segs| != 3 then error == JwtShape(|segs|)
    else if DecodeJson(w, segs[0]).Err? then SegmentFails(w, segs[0], "header", error)
    else if DecodeJson(w, segs[1]).Err? then SegmentFails(w, segs[1], "payload", error)
    else if w.decode64(segs[2]).None? then error == BadBase64("signature")
    else
      var header := DecodeJson(w, segs[0]).value;
      if header.GetStr("kid").None? then error == MissingHeaderField("kid")
      else header.GetStr("alg").None? && error == MissingHeaderField("alg")
  }

  lemma HeadErrorIsExact(w: Wire, jwt: string, error: StatementError)
    ensures DecodeHead(w, jwt) == Err(error) <==> HeadFails(w, jwt, error)
  {
    hide Split, DecodeJson;
  }

  predicate DisclosureFails(w: Wire, segment: string, error: StatementError) {
    if DecodeJson(w, segment).Ok? then !DecodeJson(w, segment).value.Arr? && error == DisclosureNotArray
    else SegmentFails(w, segment, "disclosure", error)
  }

  lemma AbortSays(w: Wire, segment: string)
    requires !DecodesToArray(w, segment)
    ensures FirstAbort(w, [segment]).Some? && DisclosureFails(w, segment, FirstAbort(w, [segment]).value)
  {
    assert [segment][1..] == [];
  }

  /** The error is that of the first segment that is not a JSON array. */
  lemma {:induction false} AbortErrorIsExact(w: Wire, segments: seq<string>, i: nat)
    requires i < |segments| && !DecodesToArray(w, segments[i]) && forall s | s in segments[..i] :: DecodesToArray(w, s)
    ensures FirstAbort(w, segments).Some? && DisclosureFails(w, segments[i], FirstAbort(w, segments).value)
  {
    hide DecodesToArray, DisclosureFails;
    AbortAt(w, segments, i);
    AbortSays(w, segments[i]);
    AbortAt(w, [segments[i]], 0);
  }

  predicate AssemblyFails(head: Head, error: StatementError) {
    if head.payload.GetU64("iat").None? then error == MissingPayloadField("iat")
    else
      && StatusMember(head.payload).Some?
      && StatusLists.PointerFromJson(StatusMember(head.payload).value).Err?
      && error == BadPointer(StatusLists.PointerFromJson(StatusMember(head.payload).value).error)
  }

  /** The errors of a token, those of its first three segments before those of its disclosures. */
  lemma StatementErrorIsExact(w: Wire, text: string)
    requires FromJwt(w, text).Err?
    ensures var jwt, segments, error := Parts(text)[0], Parts(text)[1..], FromJwt(w, text).error;
      if DecodeHead(w, jwt).Err? then HeadFails(w, jwt, error)
      else if exists s :: s in segments && !DecodesToArray(w, s) then
        exists i: nat :: i < |segments| && FirstNonArray(w, segments, i) && DisclosureFails(w, segments[i], error)
      else AssemblyFails(DecodeHead(w, jwt).value, error)
  {
    hide DecodeHead, HeadFails, Parts, DecodesToArray, Fold, Authorised, DisclosureFails, StatusLists.PointerFromJson;
    var jwt, segments := Parts(text)[0], Parts(text)[1..];
    HeadErrorIsExact(w, jwt, FromJwt(w, text).error);
    if s :| s in segments && !DecodesToArray(w, s) {
      var i := NonArrayIn(w, segments);
      AbortErrorIsExact(w, segments, i);
    }
  }

  predicate FirstNonArray(w: Wire, segments: seq<string>, i: nat) {
    i < |segments| && !DecodesToArray(w, segments[i]) && forall s | s in segments[..i] :: DecodesToArray(w, s)
  }

  lemma {:induction false} NonArrayIn(w: Wire, segments: seq<string>) returns (i: nat)
    requires exists s :: s in segments && !DecodesToArray(w, s)
    ensures i < |segments| && FirstNonArray(w, segments, i)
  {
    hide DecodesToArray;
    if !DecodesToArray(w, segments[0]) {
      i := 0;
    } else {
      assert segments == [segments[0]] + segments[1..];
      i := NonArrayIn(w, segments[1..]);
      assert segments[..i + 1] == [segments[0]] + segments[1..][..i];
      i := i + 1;
    }
  }

  // --- disclosed claims ---

  ghost predicate Discloses(w: Wire, segment: string, name: string, value: Json) {
    exists salt :: DecodeJson(w, segment) == Ok(Arr([Str(salt), Str(name), value]))
  }

  ghost predicate StatesActor(w: Wire, payload: Json, segment: string, b: bool) {
    CommitsTo(w, payload, segment) && Discloses(w, segment, "isStateActor", Bool(b))
  }

  ghost predicate StatesName(w: Wire, payload: Json, segment: string, lang: string, name: string) {
    && CommitsTo(w, payload, segment)
    && exists members :: Discloses(w, segment, "entityName", Obj(members)) && lang in members
                         && members[lang] == Str(name)
  }

  /** The last segment to state the state actor flag states `b`. */
  ghost predicate LastActor(w: Wire, payload: Json, segments: seq<string>, i: nat, b: bool) {
    && i < |segments| && StatesActor(w, payload, segments[i], b)
    && forall j, x | i < j < |segments| :: !StatesActor(w, payload, segments[j], x)
  }

  ghost predicate LastName(w: Wire, payload: Json, segments: seq<string>, lang: string, i: nat, name: string) {
    && i < |segments| && StatesName(w, payload, segments[i], lang, name)
    && forall j, x | i < j < |segments| :: !StatesName(w, payload, segments[j], lang, x)
  }

  ghost predicate SaysActor(w: Wire, payload: Json, segments: seq<string>, b: bool) {
    exists i :: LastActor(w, payload, segments, i, b)
  }

  ghost predicate SaysName(w: Wire, payload: Json, segments: seq<string>, lang: string, name: string) {
    exists i :: LastName(w, payload, segments, lang, i, name)
  }

  function NameIn(claims: Claims, lang: string): Option<string> {
    if lang in claims.entityName then Some(claims.entityName[lang]) else None
  }

  /** What one segment does to the claims. */
  function AfterSegment(w: Wire, payload: Json, claims: Claims, segment: string): Claims {
    var one := AuthorisedOne(w, SdSet(payload), segment);
    if one == [] then claims else Disclose(claims, one[0])
  }

  lemma ParsedIsDisclosed(w: Wire, segment: string, name: string, value: Json)
    ensures Discloses(w, segment, name, value) <==>
            ParseDisclosure(w, segment).Ok? && ParseDisclosure(w, segment).value.name == name
            && ParseDisclosure(w, segment).value.value == value
  {
    if ParseDisclosure(w, segment).Ok? {
      var items := DecodeJson(w, segment).value.items;
      assert items == [Str(items[0].s), Str(items[1].s), items[2]];
    }
  }

  lemma ActorAfterSegment(w: Wire, payload: Json, claims: Claims, segment: string)
    ensures var after := AfterSegment(w, payload, claims, segment).isStateActor;
      && (forall b | StatesActor(w, payload, segment, b) :: after == Some(b))
      && ((forall b :: !StatesActor(w, payload, segment, b)) ==> after == claims.isStateActor)
  {
    hide ParseDisclosure, Discloses, SdSet, Digest, CommitsTo;
    CommittedDigest(w, payload, segment);
    forall b: bool {
      ParsedIsDisclosed(w, segment, "isStateActor", Bool(b));
    }
    if ParseDisclosure(w, segment).Ok? && ParseDisclosure(w, segment).value.value.Bool? {
      var d := ParseDisclosure(w, segment).value;
      assert d.value == Bool(d.value.b);
    }
  }

  lemma NameAfterSegment(w: Wire, payload: Json, claims: Claims, segment: string, lang: string)
    ensures var after := NameIn(AfterSegment(w, payload, claims, segment), lang);
      && (forall name | StatesName(w, payload, segment, lang, name) :: after == Some(name))
      && ((forall name :: !StatesName(w, payload, segment, lang, name)) ==> after == NameIn(claims, lang))
  {
    hide ParseDisclosure, Discloses, SdSet, Digest, CommitsTo;
    CommittedDigest(w, payload, segment);
    forall members {
      ParsedIsDisclosed(w, segment, "entityName", Obj(members));
    }
    if AuthorisedOne(w, SdSet(payload), segment) != [] {
      var d := ParseDisclosure(w, segment).value;
      if d.name == "entityName" && d.value.Obj? && lang in d.value.members && d.value.members[lang].Str? {
        assert d.value == Obj(d.value.members) && d.value.members[lang] == Str(d.value.members[lang].s);
        assert StatesName(w, payload, segment, lang, d.value.members[lang].s);
      }
    }
  }

  lemma FoldedClaims(w: Wire, payload: Json, segments: seq<string>)
    requires segments != []
    ensures var n := |segments| - 1;
            Fold(Authorised(w, SdSet(payload), segments))
            == AfterSegment(w, payload, Fold(Authorised(w, SdSet(payload), segments[..n])), segments[n])
  {
    hide SdSet, AuthorisedOne, Disclose;
    var n := |segments| - 1;
    assert segments == segments[..n] + [segments[n]];
    FoldNext(w, SdSet(payload), segments[..n], segments[n]);
  }

  lemma {:induction false} ActorIsLast(w: Wire, payload: Json, segments: seq<string>, i: nat, b: bool)
    requires LastActor(w, payload, segments, i, b)
    ensures Fold(Authorised(w, SdSet(payload), segments)).isStateActor == Some(b)
    decreases |segments|
  {
    hide SdSet, StatesActor, AfterSegment, Fold, Authorised;
    var n := |segments| - 1;
    FoldedClaims(w, payload, segments);
    ActorAfterSegment(w, payload, Fold(Authorised(w, SdSet(payload), segments[..n])), segments[n]);
    if i < n {
      ActorIsLast(w, payload, segments[..n], i, b);
    }
  }

  lemma {:induction false} NoActor(w: Wire, payload: Json, segments: seq<string>)
    requires forall s, b | s in segments :: !StatesActor(w, payload, s, b)
    ensures Fold(Authorised(w, SdSet(payload), segments)).isStateActor.None?
    decreases |segments|
  {
    hide SdSet, StatesActor, AfterSegment;
    if segments == [] {
    } else {
      var n := |segments| - 1;
      assert segments[n] in segments;
      FoldedClaims(w, payload, segments);
      ActorAfterSegment(w, payload, Fold(Authorised(w, SdSet(payload), segments[..n])), segments[n]);
      NoActor(w, payload, segments[..n]);
    }
  }

  lemma {:induction false} SomeActorIsLast(w: Wire, payload: Json, segments: seq<string>)
    ensures (forall s, b | s in segments :: !StatesActor(w, payload, s, b))
         || exists i, b :: LastActor(w, payload, segments, i, b)
    decreases |segments|
  {
    hide StatesActor;
    if segments == [] {
    } else {
      var n := |segments| - 1;
      if b :| StatesActor(w, payload, segments[n], b) {
        assert LastActor(w, payload, segments, n, b);
      } else {
        SomeActorIsLast(w, payload, segments[..n]);
        if i, b :| LastActor(w, payload, segments[..n], i, b) {
          assert LastActor(w, payload, segments, i, b);
        } else {
          assert segments == segments[..n] + [segments[n]];
        }
      }
    }
  }

  lemma {:induction false} NameIsLast(w: Wire, payload: Json, segments: seq<string>, lang: string, i: nat,
                                      name: string)
    requires LastName(w, payload, segments, lang, i, name)
    ensures NameIn(Fold(Authorised(w, SdSet(payload), segments)), lang) == Some(name)
    decreases |segments|
  {
    hide SdSet, StatesName, AfterSegment, Fold, Authorised, NameIn;
    var n := |segments| - 1;
    FoldedClaims(w, payload, segments);
    NameAfterSegment(w, payload, Fold(Authorised(w, SdSet(payload), segments[..n])), segments[n], lang);
    if i < n {
      NameIsLast(w, payload, segments[..n], lang, i, name);
    }
  }

  lemma {:induction false} NoName(w: Wire, payload: Json, segments: seq<string>, lang: string)
    requires forall s, name | s in segments :: !StatesName(w, payload, s, lang, name)
    ensures NameIn(Fold(Authorised(w, SdSet(payload), segments)), lang).None?
    decreases |segments|
  {
    hide SdSet, StatesName, AfterSegment;
    if segments == [] {
    } else {
      var n := |segments| - 1;
      assert segments[n] in segments;
      FoldedClaims(w, payload, segments);
      NameAfterSegment(w, payload, Fold(Authorised(w, SdSet(payload), segments[..n])), segments[n], lang);
      NoName(w, payload, segments[..n], lang);
    }
  }

  lemma {:induction false} SomeNameIsLast(w: Wire, payload: Json, segments: seq<string>, lang: string)
    ensures (forall s, name | s in segments :: !StatesName(w, payload, s, lang, name))
         || exists i, name :: LastName(w, payload, segments, lang, i, name)
    decreases |segments|
  {
    hide StatesName;
    if segments == [] {
    } else {
      var n := |segments| - 1;
      if name :| StatesName(w, payload, segments[n], lang, name) {
        assert LastName(w, payload, segments, lang, n, name);
      } else {
        SomeNameIsLast(w, payload, segments[..n], lang);
        if i, name :| LastName(w, payload, segments[..n], lang, i, name) {
          assert LastName(w, payload, segments, lang, i, name);
        } else {
          assert segments == segments[..n] + [segments[n]];
        }
      }
    }
  }

  lemma DecodedIn(w: Wire, text: string, stmt: TrustStatement) returns (head: Head)
    requires FromJwt(w, text) == Ok(stmt)
    ensures DecodeHead(w, Parts(text)[0]) == Ok(head) && FieldsOf(head, stmt)
    ensures var claims := Fold(Authorised(w, SdSet(head.payload), Parts(text)[1..]));
            stmt.entityName == claims.entityName && stmt.isStateActor == claims.isStateActor
  {
    hide DecodeHead, Assemble, Parts, FieldsOf, Fold, Authorised, FirstAbort, SdSet;
    head := DecodeHead(w, Parts(text)[0]).value;
    AssembledFields(head, Fold(Authorised(w, SdSet(head.payload), Parts(text)[1..])), stmt);
  }

  /**
   Every field of a decoded statement: header and payload members, and each claim from the last segment
   that states it and whose digest is in the signed `_sd` array; no such segment, no claim.
   */
  lemma StatementIsExact(w: Wire, text: string, stmt: TrustStatement) returns (head: Head)
    requires FromJwt(w, text) == Ok(stmt)
    ensures DecodeHead(w, Parts(text)[0]) == Ok(head) && FieldsOf(head, stmt)
    ensures var segments := Parts(text)[1..];
      && (forall b :: stmt.isStateActor == Some(b) <==> SaysActor(w, head.payload, segments, b))
      && (forall lang, name :: SaysName(w, head.payload, segments, lang, name)
                          <==> lang in stmt.entityName && stmt.entityName[lang] == name)
  {
    hide *;
    head := DecodedIn(w, text, stmt);
    var segments := Parts(text)[1..];
    ActorIsExact(w, head.payload, segments);
    forall lang {
      NameIsExact(w, head.payload, segments, lang);
    }
  }

  lemma ActorIsExact(w: Wire, payload: Json, segments: seq<string>)
    ensures forall b :: Fold(Authorised(w, SdSet(payload), segments)).isStateActor == Some(b)
                   <==> SaysActor(w, payload, segments, b)
  {
    hide LastActor, Fold, Authorised, SdSet, StatesActor;
    forall i: nat, b | LastActor(w, payload, segments, i, b)
      ensures Fold(Authorised(w, SdSet(payload), segments)).isStateActor == Some(b)
    {
      ActorIsLast(w, payload, segments, i, b);
    }
    SomeActorIsLast(w, payload, segments);
    if forall s, b | s in segments :: !StatesActor(w, payload, s, b) {
      NoActor(w, payload, segments);
    }
  }

  lemma NameIsExact(w: Wire, payload: Json, segments: seq<string>, lang: string)
    ensures var names := Fold(Authorised(w, SdSet(payload), segments)).entityName;
      forall name :: SaysName(w, payload, segments, lang, name) <==> lang in names && names[lang] == name
  {
    hide LastName, Fold, Authorised, SdSet, StatesName;
    forall i: nat, name | LastName(w, payload, segments, lang, i, name)
      ensures NameIn(Fold(Authorised(w, SdSet(payload), segments)), lang) == Some(name)
    {
      NameIsLast(w, payload, segments, lang, i, name);
    }
    SomeNameIsLast(w, payload, segments, lang);
    if forall s, name | s in segments :: !StatesName(w, payload, s, lang, name) {
      NoName(w, payload, segments, lang);
    }
  }
}
