/**
 The decoder of trust statements (swiyu-core/src/truststatement/mod.rs) with the disclosure
 segments of swiyu-core/src/sd_jwt.rs.
 */
module TrustStatements {
  import opened Basics
  import opened Text
  import opened Json
  import opened Wire
  import StatusLists

  datatype StatementError =
    | JwtShape(got: nat)
    | BadBase64(segment: string)
    | BadJson(segment: string)
    | DisclosureNotArray
    | MissingHeaderField(name: string)
    | MissingPayloadField(name: string)
    | BadPointer(error: StatusLists.StatusListError)

  datatype TrustStatement = TrustStatement(
    vct: string,
    iss: string,
    iat: u64,
    nbf: Option<u64>,
    exp: Option<u64>,
    entityName: map<string, string>,
    isStateActor: Option<bool>,
    status: Option<StatusLists.StatusListPointer>,
    kid: string,
    alg: string,
    signingInput: string,
    signature: Bytes)

  // --- disclosures ---

  datatype Disclosure = Disclosure(salt: string, name: string, value: Json, encoded: string)

  datatype DisclosureError = NotBase64 | NotJson | NotArray | WrongLength(got: nat) | SaltNotString | NameNotString

  function Digest(w: Wire, encoded: string): string {
    w.encode64(w.sha256(encoded))
  }

  function ParseDisclosure(w: Wire, encoded: string): Result<Disclosure, DisclosureError> {
    match DecodeJson(w, encoded)
    case Err(NoBase64) => Err(NotBase64)
    case Err(NoJson) => Err(NotJson)
    case Ok(v) =>
      if !v.Arr? then Err(NotArray)
      else if |v.items| != 3 then Err(WrongLength(|v.items|))
      else if !v.items[0].Str? then Err(SaltNotString)
      else if !v.items[1].Str? then Err(NameNotString)
      else Ok(Disclosure(v.items[0].s, v.items[1].s, v.items[2], encoded))
  }

  /** The errors that fail the whole statement; the other ones skip the disclosure. */
  function Abort(e: DisclosureError): Option<StatementError> {
    match e
    case NotBase64 => Some(BadBase64("disclosure"))
    case NotJson => Some(BadJson("disclosure"))
    case NotArray => Some(DisclosureNotArray)
    case _ => None
  }

  predicate DecodesToArray(w: Wire, segment: string) {
    DecodeJson(w, segment).Ok? && DecodeJson(w, segment).value.Arr?
  }

  /** A segment fails the statement exactly when it is not a JSON array. */
  lemma AbortIsExact(w: Wire, segment: string)
    ensures var parsed := ParseDisclosure(w, segment);
            DecodesToArray(w, segment) <==> (parsed.Err? ==> Abort(parsed.error).None?)
  {
  }

  datatype Claims = Claims(entityName: map<string, string>, isStateActor: Option<bool>)

  const NO_CLAIMS := Claims(map[], None)

  function StringMembers(m: map<string, Json>): map<string, string> {
    map k | k in m && m[k].Str? :: m[k].s
  }

  function Disclose(claims: Claims, d: Disclosure): Claims {
    if d.name == "entityName" && d.value.Obj? then
      claims.(entityName := claims.entityName + StringMembers(d.value.members))
    else if d.name == "isStateActor" && d.value.Bool? then
      claims.(isStateActor := Some(d.value.b))
    else claims
  }

  // --- the disclosures the signed `_sd` array commits to ---

  function SdSet(payload: Json): set<string> {
    match payload.Get("_sd")
    case Some(Arr(items)) => set v | v in items && v.Str? :: v.s
    case _ => {}
  }

  /** The disclosure of a segment, provided its digest is listed. */
  function AuthorisedOne(w: Wire, sd: set<string>, segment: string): seq<Disclosure> {
    match ParseDisclosure(w, segment)
    case Ok(d) => if Digest(w, segment) in sd then [d] else []
    case Err(_) => []
  }

  function Authorised(w: Wire, sd: set<string>, segments: seq<string>): seq<Disclosure> {
    if segments == [] then []
    else Authorised(w, sd, segments[..|segments| - 1]) + AuthorisedOne(w, sd, segments[|segments| - 1])
  }

  function FirstAbort(w: Wire, segments: seq<string>): (r: Option<StatementError>)
    ensures r.None? <==> forall s | s in segments :: DecodesToArray(w, s)
  {
    if segments == [] then None
    else if !DecodesToArray(w, segments[0]) then Abort(ParseDisclosure(w, segments[0]).error)
    else
      assert segments == [segments[0]] + segments[1..];
      FirstAbort(w, segments[1..])
  }

  function Fold(ds: seq<Disclosure>): Claims {
    if ds == [] then NO_CLAIMS else Disclose(Fold(ds[..|ds| - 1]), ds[|ds| - 1])
  }

  /** The claims of a statement: a malformed segment fails it, unauthorised ones do not exist. */
  function Disclosed(w: Wire, sd: set<string>, segments: seq<string>): Result<Claims, StatementError> {
    match FirstAbort(w, segments)
    case Some(e) => Err(e)
    case None => Ok(Fold(Authorised(w, sd, segments)))
  }

  // --- the decoder ---

  datatype Head = Head(payload: Json, kid: string, alg: string, signingInput: string, signature: Bytes)

  function At(segment: string, r: Result<Json, SegmentFault>): Result<Json, StatementError> {
    match r
    case Err(NoBase64) => Err(BadBase64(segment))
    case Err(NoJson) => Err(BadJson(segment))
    case Ok(v) => Ok(v)
  }

  /** Everything checked before the disclosures. */
  function DecodeHead(w: Wire, jwt: string): Result<Head, StatementError> {
    var segs := Split(jwt, '.');
    if |segs| != 3 then Err(JwtShape(|segs|))
    else
      var header :- At("header", DecodeJson(w, segs[0]));
      var payload :- At("payload", DecodeJson(w, segs[1]));
      match w.decode64(segs[2])
      case None => Err(BadBase64("signature"))
      case Some(signature) =>
        var kid := header.GetStr("kid");
        var alg := header.GetStr("alg");
        if kid.None? then Err(MissingHeaderField("kid"))
        else if alg.None? then Err(MissingHeaderField("alg"))
        else Ok(Head(payload, kid.value, alg.value, segs[0] + "." + segs[1], signature))
  }

  function StringOr(v: Option<string>, default_: string): string {
    if v.Some? then v.value else default_
  }

  function StatusPointer(payload: Json): Result<Option<StatusLists.StatusListPointer>, StatementError> {
    match payload.Get("status")
    case None => Ok(None)
    case Some(status) =>
      match status.Get("status_list")
      case None => Ok(None)
      case Some(v) =>
        match StatusLists.PointerFromJson(v)
        case Ok(p) => Ok(Some(p))
        case Err(e) => Err(BadPointer(e))
  }

  /** Everything read after the disclosures. */
  function Assemble(head: Head, claims: Claims): Result<TrustStatement, StatementError> {
    var p := head.payload;
    var iat := p.GetU64("iat");
    if iat.None? then Err(MissingPayloadField("iat"))
    else
      var status :- StatusPointer(p);
      Ok(TrustStatement(
           StringOr(p.GetStr("vct"), "(unknown)"), StringOr(p.GetStr("iss"), "(unknown)"),
           iat.value, p.GetU64("nbf"), p.GetU64("exp"),
           claims.entityName, claims.isStateActor, status,
           head.kid, head.alg, head.signingInput, head.signature))
  }

  function FromParts(w: Wire, jwt: string, segments: seq<string>): Result<TrustStatement, StatementError> {
    var head :- DecodeHead(w, jwt);
    var claims :- Disclosed(w, SdSet(head.payload), segments);
    Assemble(head, claims)
  }

  function Parts(text: string): (parts: seq<string>)
    ensures parts != []
  {
    Split(TrimEndMatches(text, '~'), '~')
  }

  function FromJwt(w: Wire, text: string): Result<TrustStatement, StatementError> {
    FromParts(w, Parts(text)[0], Parts(text)[1..])
  }

  /** The decoder with its loop over the disclosure segments. */
  method TryFromJwt(w: Wire, text: string) returns (r: Result<TrustStatement, StatementError>)
    ensures r == FromJwt(w, text)
  {
    hide DecodeHead, Assemble, TrimEndMatches, SdSet, Disclose, Digest, ParseDisclosure, Split, DecodesToArray;
    var parts := Split(TrimEndMatches(text, '~'), '~');
    var disclosureStrs := parts[1..];
    var head :- DecodeHead(w, parts[0]);
    var sdSet := SdSet(head.payload);
    var claims := NO_CLAIMS;
    for i := 0 to |disclosureStrs|
      invariant forall s | s in disclosureStrs[..i] :: DecodesToArray(w, s)
      invariant claims == Fold(Authorised(w, sdSet, disclosureStrs[..i]))
    {
      var seg := disclosureStrs[i];
      assert disclosureStrs[..i + 1] == disclosureStrs[..i] + [seg];
      AbortIsExact(w, seg);
      match ParseDisclosure(w, seg) {
        case Err(e) =>
          var abort := Abort(e);
          if abort.Some? {
            AbortAt(w, disclosureStrs, i);
            return Err(abort.value);
          }
          assert AuthorisedOne(w, sdSet, seg) == [];
        case Ok(d) =>
          if Digest(w, seg) in sdSet {
            claims := Disclose(claims, d);
          }
      }
      FoldNext(w, sdSet, disclosureStrs[..i], seg);
    }
    assert disclosureStrs[..|disclosureStrs|] == disclosureStrs;
    r := Assemble(head, claims);
  }

  lemma {:induction false} AbortAt(w: Wire, segments: seq<string>, i: nat)
    requires i < |segments| && !DecodesToArray(w, segments[i])
    requires forall s | s in segments[..i] :: DecodesToArray(w, s)
    ensures FirstAbort(w, segments) == Abort(ParseDisclosure(w, segments[i]).error)
  {
    if i == 0 {
    } else {
      assert segments[0] in segments[..i];
      assert segments[1..][..i - 1] == segments[..i][1..];
      AbortAt(w, segments[1..], i - 1);
    }
  }

  lemma FoldNext(w: Wire, sd: set<string>, segments: seq<string>, segment: string)
    ensures Fold(Authorised(w, sd, segments + [segment]))
         == var front := Fold(Authorised(w, sd, segments));
            var one := AuthorisedOne(w, sd, segment);
            if one == [] then front else Disclose(front, one[0])
  {
    var front, one := Authorised(w, sd, segments), AuthorisedOne(w, sd, segment);
    assert (segments + [segment])[..|segments|] == segments;
    assert Authorised(w, sd, segments + [segment]) == front + one;
    if one == [] {
      assert front + one == front;
    } else {
      assert (front + one)[..|front|] == front;
    }
  }

  // --- what a disclosure segment can do ---

  lemma {:induction false} AuthorisedConcat(w: Wire, sd: set<string>, a: seq<string>, b: seq<string>)
    ensures Authorised(w, sd, a + b) == Authorised(w, sd, a) + Authorised(w, sd, b)
    decreases |b|
  {
    if b == [] {
      assert a + b == a;
      assert Authorised(w, sd, a) + [] == Authorised(w, sd, a);
    } else {
      var front := b[..|b| - 1];
      assert (a + b)[..|a + b| - 1] == a + front;
      AuthorisedConcat(w, sd, a, front);
    }
  }

  lemma {:induction false} FirstAbortConcat(w: Wire, a: seq<string>, b: seq<string>)
    ensures FirstAbort(w, a + b) == if FirstAbort(w, a).Some? then FirstAbort(w, a) else FirstAbort(w, b)
  {
    if a == [] {
      assert a + b == b;
    } else {
      assert (a + b)[1..] == a[1..] + b;
      FirstAbortConcat(w, a[1..], b);
    }
  }

  predicate Unauthorised(w: Wire, sd: set<string>, segment: string) {
    AuthorisedOne(w, sd, segment) == []
  }

  lemma UnauthorisedSegmentIsInvisible(w: Wire, sd: set<string>, a: seq<string>, segment: string, b: seq<string>)
    requires DecodesToArray(w, segment) && Unauthorised(w, sd, segment)
    ensures Disclosed(w, sd, a + [segment] + b) == Disclosed(w, sd, a + b)
  {
    var one := [segment];
    assert FirstAbort(w, one).None? && Authorised(w, sd, one) == [] by {
      assert one[..0] == [];
    }
    AuthorisedConcat(w, sd, a + one, b);
    AuthorisedConcat(w, sd, a, one);
    AuthorisedConcat(w, sd, a, b);
    assert Authorised(w, sd, a) + [] == Authorised(w, sd, a);
    FirstAbortConcat(w, a + one, b);
    FirstAbortConcat(w, a, one);
    FirstAbortConcat(w, a, b);
  }

  /** The token with one more segment after the first k parts, the trailing tildes kept. */
  function Inserted(text: string, k: nat, segment: string): string
    requires 1 <= k <= |Parts(text)|
  {
    var trimmed := TrimEndMatches(text, '~');
    Join(Parts(text)[..k] + [segment] + Parts(text)[k..], "~") + text[|trimmed|..]
  }

  lemma {:induction false} TrimTrailing(core: string, tail: string, c: char)
    requires forall x | x in tail :: x == c
    requires core == "" || core[|core| - 1] != c
    ensures TrimEndMatches(core + tail, c) == core
    decreases |tail|
  {
    if tail == "" {
      assert core + tail == core;
    } else {
      var front := tail[..|tail| - 1];
      assert (core + tail)[..|core + tail| - 1] == core + front;
      assert tail[|tail| - 1] in tail && forall x | x in front :: x in tail;
      TrimTrailing(core, front, c);
    }
  }

  lemma {:induction false} TrimmedTail(text: string, c: char)
    ensures |TrimEndMatches(text, c)| <= |text|
    ensures var t := TrimEndMatches(text, c);
            && t == text[..|t|]
            && (forall x | x in text[|t|..] :: x == c)
            && (t == "" || t[|t| - 1] != c)
  {
    if text != "" && text[|text| - 1] == c {
      var front := text[..|text| - 1];
      TrimmedTail(front, c);
      var t := TrimEndMatches(front, c);
      assert text[|t|..] == front[|t|..] + [c];
    }
  }

  lemma {:induction false} JoinEnd(parts: seq<string>, sep: string)
    requires parts != [] && parts[|parts| - 1] != ""
    ensures Join(parts, sep) != ""
    ensures var last := parts[|parts| - 1];
            Join(parts, sep)[|Join(parts, sep)| - 1] == last[|last| - 1]
  {
    if |parts| == 1 {
      assert Join(parts, sep) == parts[0];
    } else {
      var tail := Join(parts[1..], sep);
      JoinEnd(parts[1..], sep);
      assert Join(parts, sep) == (parts[0] + sep) + tail;
    }
  }

  /** The last part of a trimmed token is not empty, unless the token has no other part. */
  lemma LastPart(text: string)
    ensures var parts := Parts(text);
            parts[|parts| - 1] != "" || |parts| == 1
  {
    var trimmed := TrimEndMatches(text, '~');
    var parts := Parts(text);
    TrimmedTail(text, '~');
    JoinSplit(trimmed, '~');
    if |parts| > 1 && parts[|parts| - 1] == "" {
      JoinOfEmptyLast(parts, "~");
      assert false;
    }
  }

  lemma {:induction false} JoinOfEmptyLast(parts: seq<string>, sep: string)
    requires |parts| > 1 && parts[|parts| - 1] == "" && |sep| == 1
    ensures Join(parts, sep) != "" && Join(parts, sep)[|Join(parts, sep)| - 1] == sep[0]
  {
    if |parts| > 2 {
      JoinOfEmptyLast(parts[1..], sep);
    } else {
      assert Join(parts[1..], sep) == "";
    }
  }

  /** Inserting a segment inserts it among the parts and nowhere else. */
  lemma PartsOfInserted(text: string, k: nat, segment: string)
    requires 1 <= k <= |Parts(text)| && segment != "" && '~' !in segment
    ensures Parts(Inserted(text, k, segment)) == Parts(text)[..k] + [segment] + Parts(text)[k..]
  {
    var parts := Parts(text);
    var trimmed := TrimEndMatches(text, '~');
    var longer := parts[..k] + [segment] + parts[k..];
    SplitPieces(trimmed, '~');
    TrimmedTail(text, '~');
    LastPart(text);
    assert longer[|longer| - 1] == if k == |parts| then segment else parts[|parts| - 1];
    JoinEnd(longer, "~");
    assert '~' !in longer[|longer| - 1] by {
      assert forall p | p in longer :: p == segment || p in parts;
    }
    TrimTrailing(Join(longer, "~"), text[|trimmed|..], '~');
    SplitJoin(longer, '~');
  }

  /** The signed payload commits to a segment: its digest is an element of the `_sd` array. */
  predicate CommitsTo(w: Wire, payload: Json, segment: string) {
    match payload.Get("_sd")
    case Some(Arr(items)) => Str(w.encode64(w.sha256(segment))) in items
    case _ => false
  }

  lemma CommittedDigest(w: Wire, payload: Json, segment: string)
    ensures Digest(w, segment) in SdSet(payload) <==> CommitsTo(w, payload, segment)
  {
  }

  predicate ListsDigest(w: Wire, text: string, segment: string) {
    var head := DecodeHead(w, Parts(text)[0]);
    head.Ok? && CommitsTo(w, head.value.payload, segment)
  }

  /**
   A disclosure the signed `_sd` array does not commit to has no effect: inserted anywhere it
   leaves every field of the statement, and every error, as they were.
   */
  lemma UnauthorisedDisclosureHasNoEffect(w: Wire, text: string, k: nat, segment: string)
    requires 1 <= k <= |Parts(text)| && segment != "" && '~' !in segment
    requires DecodesToArray(w, segment) && !ListsDigest(w, text, segment)
    ensures FromJwt(w, Inserted(text, k, segment)) == FromJwt(w, text)
  {
    hide TrimEndMatches, Split, DecodeHead, Assemble, Disclosed, SdSet;
    PartsOfInserted(text, k, segment);
    var parts := Parts(text);
    var longer := Parts(Inserted(text, k, segment));
    assert longer[0] == parts[0];
    var head := DecodeHead(w, parts[0]);
    if head.Ok? {
      var sd := SdSet(head.value.payload);
      CommittedDigest(w, head.value.payload, segment);
      var a, b := parts[1..k], parts[k..];
      assert longer[1..] == a + [segment] + b && parts[1..] == a + b;
      UnauthorisedSegmentIsInvisible(w, sd, a, segment, b);
    }
  }

  /** A segment that is not a JSON array in base64url fails every statement it is added to. */
  lemma MalformedDisclosureFails(w: Wire, text: string, k: nat, segment: string)
    requires 1 <= k <= |Parts(text)| && segment != "" && '~' !in segment
    requires !DecodesToArray(w, segment)
    ensures FromJwt(w, Inserted(text, k, segment)).Err?
  {
    PartsOfInserted(text, k, segment);
    var longer := Parts(Inserted(text, k, segment));
    assert longer[k] == segment && segment in longer[1..] by {
      assert longer[1..][k - 1] == segment;
    }
  }

  // --- a segment put behind the trailing tildes ---

  function Tildes(n: nat): string {
    seq(n, _ => '~')
  }

  function EmptyParts(n: nat): seq<string> {
    seq(n, _ => "")
  }

  /** The token with a segment after its first `j` trailing tildes. */
  function AddedBehind(text: string, j: nat, segment: string): string
    requires |TrimEndMatches(text, '~')| + j <= |text|
  {
    var t := |TrimEndMatches(text, '~')|;
    text[..t + j] + segment + text[t + j..]
  }

  lemma {:induction false} SplitTildes(n: nat, segment: string)
    requires '~' !in segment
    ensures Split(Tildes(n) + segment, '~') == EmptyParts(n) + [segment]
  {
    if n == 0 {
      assert Tildes(0) + segment == segment;
      assert IndexOf(segment, '~') == None;
    } else {
      SplitTildes(n - 1, segment);
      assert Tildes(n) + segment == "" + ['~'] + (Tildes(n - 1) + segment);
      SplitAppend("", '~', Tildes(n - 1) + segment);
      assert EmptyParts(n) + [segment] == [""] + (EmptyParts(n - 1) + [segment]);
    }
  }

  lemma TildesOnly(n: nat)
    ensures forall x | x in Tildes(n) :: x == '~'
  {
  }

  lemma TrailingTildes(text: string, from: nat, to: nat)
    requires |TrimEndMatches(text, '~')| <= from <= to <= |text|
    ensures text[from..to] == Tildes(to - from)
  {
    var t := |TrimEndMatches(text, '~')|;
    TrimmedTail(text, '~');
    forall k | t <= k < |text| ensures text[k] == '~' {
      assert text[k] == text[t..][k - t] && text[t..][k - t] in text[t..];
    }
  }

  lemma PartsOfCore(trimmed: string, n: nat, segment: string, core: string, tail: string)
    requires segment != "" && '~' !in segment && core == trimmed + ['~'] + (Tildes(n) + segment)
    requires core[|core| - 1] != '~' && forall x | x in tail :: x == '~'
    ensures Parts(core + tail) == Split(trimmed, '~') + (EmptyParts(n) + [segment])
  {
    TrimTrailing(core, tail, '~');
    hide TrimEndMatches, Split, Tildes, EmptyParts;
    SplitAppend(trimmed, '~', Tildes(n) + segment);
    SplitTildes(n, segment);
  }

  /** All but the first of the tildes in front of the segment end an empty part of their own. */
  lemma PartsOfAddedBehind(text: string, j: nat, segment: string)
    requires 1 <= j && |TrimEndMatches(text, '~')| + j <= |text|
    requires segment != "" && '~' !in segment
    ensures Parts(AddedBehind(text, j, segment)) == Parts(text) + (EmptyParts(j - 1) + [segment])
  {
    hide TrimEndMatches, Split, Tildes, EmptyParts;
    var trimmed := TrimEndMatches(text, '~');
    var t := |trimmed|;
    var n := |text| - t - j;
    var core := trimmed + ['~'] + (Tildes(j - 1) + segment);
    assert trimmed == text[..t] by {
      TrimmedTail(text, '~');
    }
    TrailingTildes(text, t, t + j);
    TrailingTildes(text, t + j, |text|);
    CoreOfAddedBehind(text, t, j, segment, core, Tildes(n));
    TildesOnly(n);
    PartsOfCore(trimmed, j - 1, segment, core, Tildes(n));
  }

  lemma CoreOfAddedBehind(text: string, t: nat, j: nat, segment: string, core: string, tail: string)
    requires 1 <= j && t + j <= |text| && segment != ""
    requires text[t..t + j] == Tildes(j) && text[t + j..|text|] == tail
    requires core == text[..t] + ['~'] + (Tildes(j - 1) + segment)
    ensures text[..t + j] + segment + text[t + j..] == core + tail
    ensures core[|core| - 1] == segment[|segment| - 1] && (core[|core| - 1] == '~' ==> '~' in segment)
  {
    assert Tildes(j) == ['~'] + Tildes(j - 1);
    assert text[..t + j] == text[..t] + text[t..t + j];
  }

  lemma {:induction false} InvisibleEmptyParts(w: Wire, sd: set<string>, a: seq<string>, n: nat)
    requires DecodesToArray(w, "") && Unauthorised(w, sd, "")
    ensures Disclosed(w, sd, a + EmptyParts(n)) == Disclosed(w, sd, a)
  {
    hide Disclosed, DecodesToArray, Unauthorised;
    if n == 0 {
      assert a + EmptyParts(0) == a;
    } else {
      var front := a + EmptyParts(n - 1);
      InvisibleEmptyParts(w, sd, a, n - 1);
      assert a + EmptyParts(n) == front + [""] + [];
      assert front + [] == front;
      UnauthorisedSegmentIsInvisible(w, sd, front, "", []);
    }
  }

  /**
   Behind the trailing tildes an unauthorised disclosure is harmless exactly when it follows the first
   of them, or when an empty part counts as a JSON array; otherwise the empty part fails the statement.
   */
  lemma BehindTrailingTildes(w: Wire, text: string, j: nat, segment: string)
    requires 1 <= j && |TrimEndMatches(text, '~')| + j <= |text|
    requires segment != "" && '~' !in segment
    requires DecodesToArray(w, segment) && !ListsDigest(w, text, segment) && !ListsDigest(w, text, "")
    requires FromJwt(w, text).Ok?
    ensures FromJwt(w, AddedBehind(text, j, segment)) == FromJwt(w, text) <==> j == 1 || DecodesToArray(w, "")
  {
    hide TrimEndMatches, Split, DecodeHead, Assemble, Disclosed, SdSet, AddedBehind;
    PartsOfAddedBehind(text, j, segment);
    var parts := Parts(text);
    var longer := Parts(AddedBehind(text, j, segment));
    assert longer[0] == parts[0];
    var sd := SdSet(DecodeHead(w, parts[0]).value.payload);
    CommittedDigest(w, DecodeHead(w, parts[0]).value.payload, segment);
    CommittedDigest(w, DecodeHead(w, parts[0]).value.payload, "");
    var a := parts[1..];
    assert longer[1..] == a + EmptyParts(j - 1) + [segment] + [];
    assert a + EmptyParts(j - 1) + [] == a + EmptyParts(j - 1);
    UnauthorisedSegmentIsInvisible(w, sd, a + EmptyParts(j - 1), segment, []);
    if j == 1 {
      assert a + EmptyParts(0) == a;
    } else if DecodesToArray(w, "") {
      InvisibleEmptyParts(w, sd, a, j - 1);
    } else {
      EmptyPartAborts(w, sd, a, j - 1);
    }
  }

  lemma EmptyPartAborts(w: Wire, sd: set<string>, a: seq<string>, n: nat)
    requires n >= 1 && !DecodesToArray(w, "")
    ensures Disclosed(w, sd, a + EmptyParts(n)).Err?
  {
    assert (a + EmptyParts(n))[|a|] == "";
    assert "" in a + EmptyParts(n);
  }

  function NameBy(d: Disclosure, lang: string): Option<string> {
    if d.name == "entityName" then d.value.GetStr(lang) else None
  }

  function ActorBy(d: Disclosure): Option<bool> {
    if d.name == "isStateActor" then d.value.AsBool() else None
  }

  /** The answer of the last element that gives one. */
  function LastAnswer<T>(ds: seq<Disclosure>, answer: Disclosure -> Option<T>): Option<T> {
    if ds == [] then None
    else if answer(ds[|ds| - 1]).Some? then answer(ds[|ds| - 1])
    else LastAnswer(ds[..|ds| - 1], answer)
  }

  /** Each claim comes from the last authorised disclosure that states it, and from nothing else. */
  lemma {:induction false} LastDisclosureDecides(ds: seq<Disclosure>, lang: string)
    ensures (if lang in Fold(ds).entityName then Some(Fold(ds).entityName[lang]) else None)
               == LastAnswer(ds, d => NameBy(d, lang))
    ensures Fold(ds).isStateActor == LastAnswer(ds, ActorBy)
  {
    if ds == [] {
    } else {
      LastDisclosureDecides(ds[..|ds| - 1], lang);
    }
  }
}
