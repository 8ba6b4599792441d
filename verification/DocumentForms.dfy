/**
 Which JSON values are DID documents (swiyu-core/src/diddoc/mod.rs and public_keys.rs): the parser accepts
 exactly the values of these forms, and reads off exactly these fields.
 */
module DocumentForms {
  import opened Basics
  import opened Json
  import opened Crypto
  import opened PublicKeys
  import opened DidDoc

  // --- members ---

  predicate Texts(v: Json, values: seq<string>) {
    v == Arr(Strings(values))
  }

  predicate OptionalText(obj: map<string, Json>, key: string, v: Option<string>) {
    if key in obj then v.Some? && obj[key] == Str(v.value) else v.None?
  }

  lemma RequiredIsExact(obj: map<string, Json>, key: string)
    ensures forall s :: RequiredString(obj, key) == Ok(s) <==> Lookup(obj, key) == Some(Str(s))
    ensures forall v :: OptionalString(obj, key) == Ok(v) <==> OptionalText(obj, key, v)
  {
  }

  lemma {:induction false} AllParsed<T>(items: seq<Json>, parse: Json -> Result<T, DocError>, values: seq<T>)
    ensures ParseAll(items, parse) == Ok(values) <==>
            |items| == |values| && forall i | 0 <= i < |items| :: parse(items[i]) == Ok(values[i])
  {
    if items == [] || values == [] {
    } else {
      AllParsed(items[1..], parse, values[1..]);
      assert values == [values[0]] + values[1..];
      assert forall i | 0 < i < |items| :: items[i] == items[1..][i - 1];
      assert forall i | 0 <= i < |items[1..]| :: items[1..][i] == items[i + 1];
      assert forall i | 0 <= i < |values[1..]| :: values[1..][i] == values[i + 1];
    }
  }

  lemma TextsAreExact(items: seq<Json>, key: string, values: seq<string>)
    ensures ParseStrings(items, key) == Ok(values) <==> Texts(Arr(items), values)
  {
    AllParsed(items, StringParser(key), values);
    if |items| == |values| && forall i | 0 <= i < |items| :: StringParser(key)(items[i]) == Ok(values[i]) {
      assert items == Strings(values);
    }
  }

  // --- keys ---

  predicate OptionalTexts(obj: map<string, Json>, key: string, v: Option<seq<string>>) {
    if key in obj then v.Some? && Texts(obj[key], v.value) else v.None?
  }

  predicate OptionsOf(obj: map<string, Json>, o: JwkOptions) {
    && OptionalTexts(obj, "key_ops", o.keyOps) && OptionalText(obj, "alg", o.alg) && OptionalText(obj, "kid", o.kid)
    && OptionalText(obj, "use", if o.keyUse.None? then None else Some(if o.keyUse.value.Sig? then "sig" else "enc"))
  }

  lemma OptionsAreExact(obj: map<string, Json>, o: JwkOptions)
    ensures ParseOptions(obj) == Ok(o) <==> OptionsOf(obj, o)
  {
    hide ParseStrings, Texts;
    if "key_ops" in obj && obj["key_ops"].Arr? && o.keyOps.Some? {
      TextsAreExact(obj["key_ops"].items, "key_ops", o.keyOps.value);
    }
    assert "key_ops" in obj && !obj["key_ops"].Arr? && o.keyOps.Some? ==> !Texts(obj["key_ops"], o.keyOps.value) by {
      NotTexts();
    }
    RequiredIsExact(obj, "alg");
    RequiredIsExact(obj, "kid");
    hide OptionalString;
  }

  lemma NotTexts()
    ensures forall v, values | Texts(v, values) :: v.Arr?
  {
  }

  predicate JwkForm(v: Json, jwk: PublicKeyJwk) {
    && v.Obj?
    && match jwk
       case EC(crv, x, y, o) =>
         && v.Get("kty") == Some(Str("EC")) && v.Get("crv") == Some(Str(crv)) && v.Get("x") == Some(Str(x))
         && v.Get("y") == Some(Str(y)) && OptionsOf(v.members, o)
       case OKP(crv, x, o) =>
         && v.Get("kty") == Some(Str("OKP")) && v.Get("crv") == Some(Str(crv)) && v.Get("x") == Some(Str(x))
         && OptionsOf(v.members, o)
       case RSA(n, e, o) =>
         && v.Get("kty") == Some(Str("RSA")) && v.Get("n") == Some(Str(n)) && v.Get("e") == Some(Str(e))
         && OptionsOf(v.members, o)
  }

  lemma JwkIsExact(v: Json, jwk: PublicKeyJwk)
    ensures JwkFromJson(v) == Ok(jwk) <==> JwkForm(v, jwk)
  {
    hide ParseOptions, OptionsOf;
    if v.Obj? {
      OptionsAreExact(v.members, jwk.options);
    }
  }

  /** A JWK wins over a multibase key. */
  predicate KeyForm(c: Crypto, obj: map<string, Json>, key: PublicKey) {
    match key
    case Jwk(jwk) => "publicKeyJwk" in obj && JwkForm(obj["publicKeyJwk"], jwk)
    case Multibase(bytes) =>
      && "publicKeyJwk" !in obj && "publicKeyMultibase" in obj && obj["publicKeyMultibase"].Str?
      && var text := obj["publicKeyMultibase"].s;
         text != "" && text[0] == 'z' && c.unbase58(text[1..]) == Some(bytes)
  }

  lemma KeyIsExact(c: Crypto, obj: map<string, Json>, key: PublicKey)
    ensures ParseKeyMaterial(c, obj) == Ok(key) <==> KeyForm(c, obj, key)
  {
    hide JwkFromJson, JwkForm;
    if "publicKeyJwk" in obj && key.Jwk? {
      JwkIsExact(obj["publicKeyJwk"], key.jwk);
    }
  }

  predicate MethodForm(c: Crypto, v: Json, vm: VerificationMethod) {
    && v.Obj? && v.Get("id") == Some(Str(vm.id)) && v.Get("type") == Some(Str(vm.kind))
    && v.Get("controller") == Some(Str(vm.controller)) && KeyForm(c, v.members, vm.publicKey)
  }

  lemma MethodIsExact(c: Crypto, v: Json, vm: VerificationMethod)
    ensures VmFromJson(c, v) == Ok(vm) <==> MethodForm(c, v, vm)
  {
    hide ParseKeyMaterial, KeyForm;
    if v.Obj? {
      KeyIsExact(c, v.members, vm.publicKey);
    }
  }

  predicate ReferenceForm(c: Crypto, v: Json, r: MethodOrRef) {
    match r
    case Reference(url) => v == Str(url)
    case Embedded(vm) => MethodForm(c, v, vm)
  }

  // --- services and documents ---

  /** One text stands for a list of one. */
  predicate TextOrTexts(v: Json, values: seq<string>) {
    (|values| == 1 && v == Str(values[0])) || Texts(v, values)
  }

  predicate ServiceForm(v: Json, s: Service) {
    && v.Get("id") == Some(Str(s.id)) && v.Get("type").Some? && TextOrTexts(v.Get("type").value, s.kinds)
    && v.Get("serviceEndpoint") == Some(s.endpoint)
  }

  lemma TextOrTextsIsExact(v: Json, key: string, values: seq<string>)
    ensures StringOrArray(v, key) == Ok(values) <==> TextOrTexts(v, values)
  {
    if v.Arr? {
      TextsAreExact(v.items, key, values);
    }
    assert |values| == 1 ==> values == [values[0]];
    hide ParseStrings, Strings;
  }

  lemma ServiceIsExact(v: Json, s: Service)
    ensures ServiceFromJson(v) == Ok(s) <==> ServiceForm(v, s)
  {
    if v.Get("type").Some? {
      TextOrTextsIsExact(v.Get("type").value, "type", s.kinds);
    }
    hide StringOrArray, TextOrTexts;
  }

  /** An absent list is an empty one. */
  predicate TextList(obj: map<string, Json>, key: string, values: seq<string>) {
    if key in obj then TextOrTexts(obj[key], values) else values == []
  }

  lemma TextListIsExact(obj: map<string, Json>, key: string, values: seq<string>)
    ensures OptionalStringOrArray(obj, key) == Ok(values) <==> TextList(obj, key, values)
  {
    hide StringOrArray, TextOrTexts;
    if key in obj {
      TextOrTextsIsExact(obj[key], key, values);
    }
  }

  ghost predicate ListOf<T(!new)>(obj: map<string, Json>, key: string, form: (Json, T) -> bool, values: seq<T>) {
    if key in obj then
      && obj[key].Arr? && |obj[key].items| == |values|
      && forall i | 0 <= i < |values| :: form(obj[key].items[i], values[i])
    else values == []
  }

  lemma ListIsExact<T(!new)>(obj: map<string, Json>, key: string, parse: Json -> Result<T, DocError>,
                             form: (Json, T) -> bool, values: seq<T>)
    requires forall v, x :: parse(v) == Ok(x) <==> form(v, x)
    ensures ParseArray(obj, key, parse) == Ok(values) <==> ListOf(obj, key, form, values)
  {
    if key in obj && obj[key].Arr? {
      AllParsed(obj[key].items, parse, values);
    }
  }

  function MethodForms(c: Crypto): (Json, VerificationMethod) -> bool {
    (v, vm) => MethodForm(c, v, vm)
  }

  function ReferenceForms(c: Crypto): (Json, MethodOrRef) -> bool {
    (v, r) => ReferenceForm(c, v, r)
  }

  function ServiceForms(): (Json, Service) -> bool {
    (v, s) => ServiceForm(v, s)
  }

  lemma ReferenceIsExact(c: Crypto, v: Json, r: MethodOrRef)
    ensures VmOrRefFromJson(c, v) == Ok(r) <==> ReferenceForm(c, v, r)
  {
    hide VmFromJson, MethodForm;
    if r.Embedded? {
      MethodIsExact(c, v, r.vm);
    }
    assert v.Str? ==> forall vm :: !MethodForm(c, v, vm) by {
      NoMethodIsText(c);
    }
  }

  lemma NoMethodIsText(c: Crypto)
    ensures forall v, vm | MethodForm(c, v, vm) :: v.Obj?
  {
  }

  ghost predicate DocumentForm(c: Crypto, v: Json, doc: DidDoc) {
    && v.Obj? && v.Get("@context") == Some(doc.context) && v.Get("id") == Some(Str(doc.id))
    && TextList(v.members, "alsoKnownAs", doc.alsoKnownAs) && TextList(v.members, "controller", doc.controller)
    && ListOf(v.members, "verificationMethod", MethodForms(c), doc.verificationMethod)
    && ListOf(v.members, "authentication", ReferenceForms(c), doc.authentication)
    && ListOf(v.members, "assertionMethod", ReferenceForms(c), doc.assertionMethod)
    && ListOf(v.members, "keyAgreement", ReferenceForms(c), doc.keyAgreement)
    && ListOf(v.members, "capabilityInvocation", ReferenceForms(c), doc.capabilityInvocation)
    && ListOf(v.members, "capabilityDelegation", ReferenceForms(c), doc.capabilityDelegation)
    && ListOf(v.members, "service", ServiceForms(), doc.service)
  }

  lemma ReferencesAreExact(c: Crypto, obj: map<string, Json>, key: string, values: seq<MethodOrRef>)
    ensures ParseArray(obj, key, VmOrRefParser(c)) == Ok(values) <==> ListOf(obj, key, ReferenceForms(c), values)
  {
    hide ParseArray, ListOf, VmOrRefFromJson, ReferenceForm;
    forall v, r ensures VmOrRefParser(c)(v) == Ok(r) <==> ReferenceForms(c)(v, r) {
      ReferenceIsExact(c, v, r);
    }
    ListIsExact(obj, key, VmOrRefParser(c), ReferenceForms(c), values);
  }

  lemma MethodsAreExact(c: Crypto, obj: map<string, Json>, values: seq<VerificationMethod>)
    ensures ParseArray(obj, "verificationMethod", VmParser(c)) == Ok(values)
            <==> ListOf(obj, "verificationMethod", MethodForms(c), values)
  {
    hide ParseArray, ListOf, VmFromJson, MethodForm;
    forall v, vm ensures VmParser(c)(v) == Ok(vm) <==> MethodForms(c)(v, vm) {
      MethodIsExact(c, v, vm);
    }
    ListIsExact(obj, "verificationMethod", VmParser(c), MethodForms(c), values);
  }

  lemma ServicesAreExact(obj: map<string, Json>, values: seq<Service>)
    ensures ParseArray(obj, "service", ServiceParser()) == Ok(values)
            <==> ListOf(obj, "service", ServiceForms(), values)
  {
    hide ParseArray, ListOf, ServiceFromJson, ServiceForm;
    forall v, s ensures ServiceParser()(v) == Ok(s) <==> ServiceForms()(v, s) {
      ServiceIsExact(v, s);
    }
    ListIsExact(obj, "service", ServiceParser(), ServiceForms(), values);
  }

  /** The parser of DID documents accepts exactly these values. */
  lemma DocumentIsExact(c: Crypto, v: Json, doc: DidDoc)
    ensures DocFromJson(c, v) == Ok(doc) <==> DocumentForm(c, v, doc)
  {
    hide ParseArray, ListOf, OptionalStringOrArray, TextList, VmParser, VmOrRefParser, ServiceParser, MethodForms,
         ReferenceForms, ServiceForms;
    if v.Obj? {
      RequiredIsExact(v.members, "id");
      TextListIsExact(v.members, "alsoKnownAs", doc.alsoKnownAs);
      TextListIsExact(v.members, "controller", doc.controller);
      MethodsAreExact(c, v.members, doc.verificationMethod);
      ReferencesAreExact(c, v.members, "authentication", doc.authentication);
      ReferencesAreExact(c, v.members, "assertionMethod", doc.assertionMethod);
      ReferencesAreExact(c, v.members, "keyAgreement", doc.keyAgreement);
      ReferencesAreExact(c, v.members, "capabilityInvocation", doc.capabilityInvocation);
      ReferencesAreExact(c, v.members, "capabilityDelegation", doc.capabilityDelegation);
      ServicesAreExact(v.members, doc.service);
    }
  }
}
