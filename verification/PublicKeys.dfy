/** Public keys of verification methods and their JSON form (swiyu-core/src/diddoc/public_keys.rs). */
module PublicKeys {
  import opened Basics
  import opened Json
  import opened Crypto

  datatype DocError = MissingField(field: string) | InvalidFieldType(msg: string) | InvalidFormat(msg: string)

  // --- member parsers shared with the DID document ---

  function RequiredString(obj: map<string, Json>, key: string): Result<string, DocError> {
    match Lookup(obj, key)
    case None => Err(MissingField(key))
    case Some(v) => if v.Str? then Ok(v.s) else Err(InvalidFieldType("'" + key + "' must be a string"))
  }

  function OptionalString(obj: map<string, Json>, key: string): Result<Option<string>, DocError> {
    match Lookup(obj, key)
    case None => Ok(None)
    case Some(v) => if v.Str? then Ok(Some(v.s)) else Err(InvalidFieldType("'" + key + "' must be a string"))
  }

  /** `iter().map(parse).collect::<Result<Vec<_>, _>>()`: the first error wins. */
  function ParseAll<T>(items: seq<Json>, parse: Json -> Result<T, DocError>): Result<seq<T>, DocError> {
    if items == [] then Ok([])
    else
      var first :- parse(items[0]);
      var rest :- ParseAll(items[1..], parse);
      Ok([first] + rest)
  }

  function PrintAll<T>(values: seq<T>, print_: T -> Json): (r: seq<Json>)
    ensures |r| == |values| && forall i | 0 <= i < |r| :: r[i] == print_(values[i])
  {
    seq(|values|, i requires 0 <= i < |values| => print_(values[i]))
  }

  lemma {:induction false} ParseAllOf<T>(values: seq<T>, print_: T -> Json, parse: Json -> Result<T, DocError>)
    requires forall i | 0 <= i < |values| :: parse(print_(values[i])) == Ok(values[i])
    ensures ParseAll(PrintAll(values, print_), parse) == Ok(values)
  {
    var items := PrintAll(values, print_);
    if values == [] {
      assert items == [];
    } else {
      assert items[1..] == PrintAll(values[1..], print_);
      ParseAllOf(values[1..], print_, parse);
      assert [values[0]] + values[1..] == values;
    }
  }

  function StringPrinter(): string -> Json {
    s => Str(s)
  }

  function StringParser(key: string): Json -> Result<string, DocError> {
    (v: Json) => if v.Str? then Ok(v.s) else Err(InvalidFieldType("'" + key + "' elements must be strings"))
  }

  function PrintStrings(values: seq<string>): (r: Json)
    ensures r.Arr?
  {
    Arr(PrintAll(values, StringPrinter()))
  }

  function ParseStrings(items: seq<Json>, key: string): Result<seq<string>, DocError> {
    ParseAll(items, StringParser(key))
  }

  lemma ParsePrintedStrings(values: seq<string>, key: string)
    ensures ParseStrings(PrintStrings(values).items, key) == Ok(values)
  {
    ParseAllOf(values, StringPrinter(), StringParser(key));
  }

  function OptionalStringArray(obj: map<string, Json>, key: string): Result<Option<seq<string>>, DocError> {
    match Lookup(obj, key)
    case None => Ok(None)
    case Some(v) =>
      if !v.Arr? then Err(InvalidFieldType("'" + key + "' must be an array"))
      else
        var strings :- ParseStrings(v.items, key);
        Ok(Some(strings))
  }

  // --- JWK ---

  datatype KeyUse = Sig | Enc

  datatype JwkOptions = JwkOptions(
    keyUse: Option<KeyUse>, keyOps: Option<seq<string>>, alg: Option<string>, kid: Option<string>)

  datatype PublicKeyJwk =
    | EC(crv: string, x: string, y: string, options: JwkOptions)
    | OKP(crv: string, x: string, options: JwkOptions)
    | RSA(n: string, e: string, options: JwkOptions)

  const JWK_NAMES := {"kty", "crv", "x", "y", "n", "e", "use", "key_ops", "alg", "kid"}

  function OptStr(v: Option<string>): Option<Json> {
    if v.Some? then Some(Str(v.value)) else None
  }

  /** `insert_jwk_optional_fields`. */
  function OptionMember(o: JwkOptions, name: string): Option<Json> {
    if name == "use" then (if o.keyUse.None? then None else Some(Str(if o.keyUse.value.Sig? then "sig" else "enc")))
    else if name == "key_ops" then (if o.keyOps.None? then None else Some(PrintStrings(o.keyOps.value)))
    else if name == "alg" then OptStr(o.alg)
    else if name == "kid" then OptStr(o.kid)
    else None
  }

  function JwkMember(jwk: PublicKeyJwk, name: string): Option<Json> {
    match jwk
    case EC(crv, x, y, o) =>
      if name == "kty" then Some(Str("EC")) else if name == "crv" then Some(Str(crv))
      else if name == "x" then Some(Str(x)) else if name == "y" then Some(Str(y)) else OptionMember(o, name)
    case OKP(crv, x, o) =>
      if name == "kty" then Some(Str("OKP")) else if name == "crv" then Some(Str(crv))
      else if name == "x" then Some(Str(x)) else OptionMember(o, name)
    case RSA(n, e, o) =>
      if name == "kty" then Some(Str("RSA")) else if name == "n" then Some(Str(n))
      else if name == "e" then Some(Str(e)) else OptionMember(o, name)
  }

  function JwkToJson(jwk: PublicKeyJwk): (r: Json)
    ensures r.Obj?
  {
    Obj(map name | name in JWK_NAMES && JwkMember(jwk, name).Some? :: JwkMember(jwk, name).value)
  }

  const OPTION_NAMES := {"use", "key_ops", "alg", "kid"}

  /** Exactly the options that are set are inserted, each under its name; every other member stays. */
  method InsertOptionalFields(m: map<string, Json>, o: JwkOptions) returns (r: map<string, Json>)
    ensures o.keyUse.Some? ==> Lookup(r, "use") == Some(Str(if o.keyUse.value.Sig? then "sig" else "enc"))
    ensures o.keyOps.Some? ==> Lookup(r, "key_ops") == Some(PrintStrings(o.keyOps.value))
    ensures o.alg.Some? ==> Lookup(r, "alg") == Some(Str(o.alg.value))
    ensures o.kid.Some? ==> Lookup(r, "kid") == Some(Str(o.kid.value))
    ensures o.keyUse.None? ==> Lookup(r, "use") == Lookup(m, "use")
    ensures o.keyOps.None? ==> Lookup(r, "key_ops") == Lookup(m, "key_ops")
    ensures o.alg.None? ==> Lookup(r, "alg") == Lookup(m, "alg")
    ensures o.kid.None? ==> Lookup(r, "kid") == Lookup(m, "kid")
    ensures forall name :: name !in OPTION_NAMES ==> Lookup(r, name) == Lookup(m, name)
  {
    r := m;
    if o.keyUse.Some? {
      r := r["use" := Str(if o.keyUse.value.Sig? then "sig" else "enc")];
    }
    if o.keyOps.Some? {
      r := r["key_ops" := PrintStrings(o.keyOps.value)];
    }
    if o.alg.Some? {
      r := r["alg" := Str(o.alg.value)];
    }
    if o.kid.Some? {
      r := r["kid" := Str(o.kid.value)];
    }
  }

  /** The three printers, inserting one member after the other. */
  method PrintJwk(jwk: PublicKeyJwk) returns (r: Json)
    ensures r == JwkToJson(jwk)
  {
    hide JwkMember, Put, Members, OptionMember;
    JwkMembers(jwk);
    ghost var member, seen := (name: string) => JwkMember(jwk, name), {};
    NoMembers(member);
    var m: map<string, Json> := map[];
    var kty := if jwk.EC? then "EC" else if jwk.OKP? then "OKP" else "RSA";
    m := Put(m, "kty", Some(Str(kty)));
    seen := Inserted(member, seen, "kty");
    m := Put(m, "crv", if jwk.RSA? then None else Some(Str(jwk.crv)));
    seen := Inserted(member, seen, "crv");
    m := Put(m, "x", if jwk.RSA? then None else Some(Str(jwk.x)));
    seen := Inserted(member, seen, "x");
    m := Put(m, "y", if jwk.EC? then Some(Str(jwk.y)) else None);
    seen := Inserted(member, seen, "y");
    m := Put(m, "n", if jwk.RSA? then Some(Str(jwk.n)) else None);
    seen := Inserted(member, seen, "n");
    m := Put(m, "e", if jwk.RSA? then Some(Str(jwk.e)) else None);
    seen := Inserted(member, seen, "e");
    assert seen == KEY_NAMES;
    var all := InsertOptionalFields(m, jwk.options);
    OptionMembers(jwk.options);
    OptionsComplete(jwk, member, m, all);
    JwkFromMembers(jwk, member);
    r := Obj(all);
  }

  const KEY_NAMES := {"kty", "crv", "x", "y", "n", "e"}

  lemma OptionsComplete(jwk: PublicKeyJwk, member: string -> Option<Json>, m: map<string, Json>, all: map<string, Json>)
    requires forall name :: member(name) == JwkMember(jwk, name)
    requires m == Members(member, KEY_NAMES)
    requires forall name | name in OPTION_NAMES ::
               Lookup(all, name) == if OptionMember(jwk.options, name).Some? then OptionMember(jwk.options, name)
                                    else Lookup(m, name)
    requires forall name :: name !in OPTION_NAMES ==> Lookup(all, name) == Lookup(m, name)
    ensures all == Members(member, JWK_NAMES)
  {
    JwkMembers(jwk);
    hide JwkMember, OptionMember;
    forall name ensures Lookup(all, name) == if name in JWK_NAMES then member(name) else None {
      assert name in OPTION_NAMES ==> Lookup(m, name) == None;
    }
    SameLookups(all, Members(member, JWK_NAMES));
  }

  lemma OptionMembers(o: JwkOptions)
    ensures OptionMember(o, "use")
               == if o.keyUse.None? then None else Some(Str(if o.keyUse.value.Sig? then "sig" else "enc"))
    ensures OptionMember(o, "key_ops") == if o.keyOps.None? then None else Some(PrintStrings(o.keyOps.value))
    ensures OptionMember(o, "alg") == OptStr(o.alg) && OptionMember(o, "kid") == OptStr(o.kid)
  {
  }

  lemma SameLookups(a: map<string, Json>, b: map<string, Json>)
    requires forall name :: Lookup(a, name) == Lookup(b, name)
    ensures a == b
  {
    assert forall name :: name in a <==> Lookup(a, name).Some?;
    assert forall name :: name in b <==> Lookup(b, name).Some?;
    assert forall name | name in a :: a[name] == Lookup(a, name).value == Lookup(b, name).value == b[name];
  }

  lemma JwkMembers(jwk: PublicKeyJwk)
    ensures JwkMember(jwk, "kty") == Some(Str(if jwk.EC? then "EC" else if jwk.OKP? then "OKP" else "RSA"))
    ensures JwkMember(jwk, "crv") == if jwk.RSA? then None else Some(Str(jwk.crv))
    ensures JwkMember(jwk, "x") == if jwk.RSA? then None else Some(Str(jwk.x))
    ensures JwkMember(jwk, "y") == if jwk.EC? then Some(Str(jwk.y)) else None
    ensures JwkMember(jwk, "n") == if jwk.RSA? then Some(Str(jwk.n)) else None
    ensures JwkMember(jwk, "e") == if jwk.RSA? then Some(Str(jwk.e)) else None
    ensures JwkMember(jwk, "use") == OptionMember(jwk.options, "use")
    ensures JwkMember(jwk, "key_ops") == OptionMember(jwk.options, "key_ops")
    ensures JwkMember(jwk, "alg") == OptionMember(jwk.options, "alg")
    ensures JwkMember(jwk, "kid") == OptionMember(jwk.options, "kid")
  {
  }

  lemma JwkFromMembers(jwk: PublicKeyJwk, member: string -> Option<Json>)
    requires forall name :: member(name) == JwkMember(jwk, name)
    ensures JwkToJson(jwk) == Obj(Members(member, JWK_NAMES))
  {
    hide JwkMember;
  }

  function ParseKeyUse(obj: map<string, Json>): Result<Option<KeyUse>, DocError> {
    match Lookup(obj, "use")
    case None => Ok(None)
    case Some(v) =>
      if !v.Str? then Err(InvalidFieldType("'use' must be a string"))
      else if v.s == "sig" then Ok(Some(Sig))
      else if v.s == "enc" then Ok(Some(Enc))
      else Err(InvalidFormat("unknown key use '" + v.s + "'; expected 'sig' or 'enc'"))
  }

  function ParseOptions(obj: map<string, Json>): Result<JwkOptions, DocError> {
    var keyUse :- ParseKeyUse(obj);
    var keyOps :- OptionalStringArray(obj, "key_ops");
    var alg :- OptionalString(obj, "alg");
    var kid :- OptionalString(obj, "kid");
    Ok(JwkOptions(keyUse, keyOps, alg, kid))
  }

  function JwkFromJson(v: Json): Result<PublicKeyJwk, DocError> {
    if !v.Obj? then Err(InvalidFieldType("publicKeyJwk must be a JSON object"))
    else
      var obj := v.members;
      var kty :- RequiredString(obj, "kty");
      if kty == "EC" then
        var crv :- RequiredString(obj, "crv");
        var x :- RequiredString(obj, "x");
        var y :- RequiredString(obj, "y");
        var options :- ParseOptions(obj);
        Ok(EC(crv, x, y, options))
      else if kty == "OKP" then
        var crv :- RequiredString(obj, "crv");
        var x :- RequiredString(obj, "x");
        var options :- ParseOptions(obj);
        Ok(OKP(crv, x, options))
      else if kty == "RSA" then
        var n :- RequiredString(obj, "n");
        var e :- RequiredString(obj, "e");
        var options :- ParseOptions(obj);
        Ok(RSA(n, e, options))
      else Err(InvalidFormat("unsupported JWK key type '" + kty + "'; expected 'EC', 'OKP', or 'RSA'"))
  }

  lemma PrintedJwkMember(jwk: PublicKeyJwk, name: string)
    requires name in JWK_NAMES
    ensures Lookup(JwkToJson(jwk).members, name) == JwkMember(jwk, name)
  {
    hide JwkMember;
  }

  lemma ParsePrintedOptions(jwk: PublicKeyJwk)
    ensures ParseOptions(JwkToJson(jwk).members) == Ok(jwk.options)
  {
    hide JwkToJson, Lookup, PrintStrings, ParseStrings;
    PrintedJwkMember(jwk, "use");
    PrintedJwkMember(jwk, "key_ops");
    PrintedJwkMember(jwk, "alg");
    PrintedJwkMember(jwk, "kid");
    if jwk.options.keyOps.Some? {
      ParsePrintedStrings(jwk.options.keyOps.value, "key_ops");
    }
  }

  lemma ParsePrintedJwk(jwk: PublicKeyJwk)
    ensures JwkFromJson(JwkToJson(jwk)) == Ok(jwk)
  {
    ParsePrintedOptions(jwk);
    hide JwkToJson, Lookup, ParseOptions, OptionMember;
    PrintedJwkMember(jwk, "kty");
    PrintedJwkMember(jwk, "crv");
    PrintedJwkMember(jwk, "x");
    PrintedJwkMember(jwk, "y");
    PrintedJwkMember(jwk, "n");
    PrintedJwkMember(jwk, "e");
  }

  // --- key material of a verification method ---

  datatype PublicKey = Jwk(jwk: PublicKeyJwk) | Multibase(key: Bytes)

  /** Affine coordinates of a P-256 public key. */
  datatype P256PublicKey = P256PublicKey(x: Bytes, y: Bytes)

  /** `ECKey::from_p256_coordinates(..).with_kid(..)`. */
  function P256Jwk(c: Crypto, key: P256PublicKey, kid: string): PublicKeyJwk {
    EC("P-256", c.base64Url(key.x), c.base64Url(key.y), JwkOptions(None, None, None, Some(kid)))
  }
}
