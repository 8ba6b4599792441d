/** DID documents and their JSON-LD form (swiyu-core/src/diddoc/mod.rs). */
module DidDoc {
  import opened Basics
  import opened Json
  import opened Crypto
  import opened PublicKeys

  datatype VerificationMethod = VerificationMethod(
    id: string, kind: string, controller: string, publicKey: PublicKey)

  datatype MethodOrRef = Embedded(vm: VerificationMethod) | Reference(url: string)

  datatype Service = Service(id: string, kinds: seq<string>, endpoint: Json)

  datatype DidDoc = DidDoc(
    context: Json,
    id: string,
    alsoKnownAs: seq<string>,
    controller: seq<string>,
    verificationMethod: seq<VerificationMethod>,
    authentication: seq<MethodOrRef>,
    assertionMethod: seq<MethodOrRef>,
    keyAgreement: seq<MethodOrRef>,
    capabilityInvocation: seq<MethodOrRef>,
    capabilityDelegation: seq<MethodOrRef>,
    service: seq<Service>)

  const CONTEXT := Arr([Str("https://www.w3.org/ns/did/v1"), Str("https://w3id.org/security/jwk/v1")])

  const AUTHENTICATION_KID := "authentication-key-01"
  const ASSERTION_KID := "assertion-key-01"

  /** `DIDDoc::new_genesis`: the document of a DID with one authentication and one assertion key. */
  function NewGenesis(c: Crypto, did: string, authentication: P256PublicKey, assertion: P256PublicKey): DidDoc {
    var authId := did + "#" + AUTHENTICATION_KID;
    var assertId := did + "#" + ASSERTION_KID;
    DidDoc(CONTEXT, did, [], [],
           [VerificationMethod(authId, "JsonWebKey2020", did, Jwk(P256Jwk(c, authentication, AUTHENTICATION_KID))),
            VerificationMethod(assertId, "JsonWebKey2020", did, Jwk(P256Jwk(c, assertion, ASSERTION_KID)))],
           [Reference(authId)], [Reference(assertId)], [], [], [], [])
  }

  // --- printing ---

  const VM_NAMES := {"id", "type", "controller", "publicKeyJwk", "publicKeyMultibase"}

  function VmMember(c: Crypto, vm: VerificationMethod, name: string): Option<Json> {
    if name == "id" then Some(Str(vm.id))
    else if name == "type" then Some(Str(vm.kind))
    else if name == "controller" then Some(Str(vm.controller))
    else if name == "publicKeyJwk" && vm.publicKey.Jwk? then Some(JwkToJson(vm.publicKey.jwk))
    else if name == "publicKeyMultibase" && vm.publicKey.Multibase? then Some(Str("z" + c.base58(vm.publicKey.key)))
    else None
  }

  function VmToJson(c: Crypto, vm: VerificationMethod): (r: Json)
    ensures r.Obj?
  {
    Obj(map name | name in VM_NAMES && VmMember(c, vm, name).Some? :: VmMember(c, vm, name).value)
  }

  function VmOrRefToJson(c: Crypto, v: MethodOrRef): Json {
    match v
    case Embedded(vm) => VmToJson(c, vm)
    case Reference(url) => Str(url)
  }

  /** A bare string for a single element, an array otherwise. */
  function StringOrArrayValue(values: seq<string>): Json {
    if |values| == 1 then Str(values[0]) else PrintStrings(values)
  }

  function ServiceToJson(s: Service): Json {
    Obj(map["id" := Str(s.id), "type" := StringOrArrayValue(s.kinds), "serviceEndpoint" := s.endpoint])
  }

  function VmPrinter(c: Crypto): VerificationMethod -> Json {
    vm => VmToJson(c, vm)
  }

  function VmOrRefPrinter(c: Crypto): MethodOrRef -> Json {
    v => VmOrRefToJson(c, v)
  }

  function ServicePrinter(): Service -> Json {
    s => ServiceToJson(s)
  }

  /** Absent when empty. */
  function PrintArray<T>(values: seq<T>, print_: T -> Json): Option<Json> {
    if values == [] then None else Some(Arr(PrintAll(values, print_)))
  }

  const DOC_NAMES := {
    "@context", "id", "alsoKnownAs", "controller", "verificationMethod", "authentication", "assertionMethod",
    "keyAgreement", "capabilityInvocation", "capabilityDelegation", "service"
  }

  function DocMember(c: Crypto, doc: DidDoc, name: string): Option<Json> {
    if name == "@context" then Some(doc.context)
    else if name == "id" then Some(Str(doc.id))
    else if name == "alsoKnownAs" then PrintArray(doc.alsoKnownAs, StringPrinter())
    else if name == "controller" then
      (if doc.controller == [] then None else Some(StringOrArrayValue(doc.controller)))
    else if name == "verificationMethod" then PrintArray(doc.verificationMethod, VmPrinter(c))
    else if name == "authentication" then PrintArray(doc.authentication, VmOrRefPrinter(c))
    else if name == "assertionMethod" then PrintArray(doc.assertionMethod, VmOrRefPrinter(c))
    else if name == "keyAgreement" then PrintArray(doc.keyAgreement, VmOrRefPrinter(c))
    else if name == "capabilityInvocation" then PrintArray(doc.capabilityInvocation, VmOrRefPrinter(c))
    else if name == "capabilityDelegation" then PrintArray(doc.capabilityDelegation, VmOrRefPrinter(c))
    else if name == "service" then PrintArray(doc.service, ServicePrinter())
    else None
  }

  function DocToJson(c: Crypto, doc: DidDoc): (r: Json)
    ensures r.Obj?
  {
    Obj(map name | name in DOC_NAMES && DocMember(c, doc, name).Some? :: DocMember(c, doc, name).value)
  }

  /** The printer as the code runs it, inserting one member after the other. */
  method PrintDoc(c: Crypto, doc: DidDoc) returns (r: Json)
    ensures r == DocToJson(c, doc)
  {
    hide Members, DocMember, Put, PrintArray, StringOrArrayValue, StringPrinter, VmPrinter, VmOrRefPrinter,
         ServicePrinter, DocToJson;
    DocMembers(c, doc);
    ghost var member, seen := (name: string) => DocMember(c, doc, name), {};
    NoMembers(member);
    var m: map<string, Json> := map[];
    m := Put(m, "@context", Some(doc.context));
    seen := Inserted(member, seen, "@context");
    m := Put(m, "id", Some(Str(doc.id)));
    seen := Inserted(member, seen, "id");
    m := Put(m, "alsoKnownAs", PrintArray(doc.alsoKnownAs, StringPrinter()));
    seen := Inserted(member, seen, "alsoKnownAs");
    m := Put(m, "controller", if doc.controller == [] then None else Some(StringOrArrayValue(doc.controller)));
    seen := Inserted(member, seen, "controller");
    m := Put(m, "verificationMethod", PrintArray(doc.verificationMethod, VmPrinter(c)));
    seen := Inserted(member, seen, "verificationMethod");
    m := Put(m, "authentication", PrintArray(doc.authentication, VmOrRefPrinter(c)));
    seen := Inserted(member, seen, "authentication");
    m := Put(m, "assertionMethod", PrintArray(doc.assertionMethod, VmOrRefPrinter(c)));
    seen := Inserted(member, seen, "assertionMethod");
    m := Put(m, "keyAgreement", PrintArray(doc.keyAgreement, VmOrRefPrinter(c)));
    seen := Inserted(member, seen, "keyAgreement");
    m := Put(m, "capabilityInvocation", PrintArray(doc.capabilityInvocation, VmOrRefPrinter(c)));
    seen := Inserted(member, seen, "capabilityInvocation");
    m := Put(m, "capabilityDelegation", PrintArray(doc.capabilityDelegation, VmOrRefPrinter(c)));
    seen := Inserted(member, seen, "capabilityDelegation");
    m := Put(m, "service", PrintArray(doc.service, ServicePrinter()));
    seen := Inserted(member, seen, "service");
    assert seen == DOC_NAMES;
    DocFromMembers(c, doc, member);
    r := Obj(m);
  }

  lemma DocMembers(c: Crypto, doc: DidDoc)
    ensures DocMember(c, doc, "@context") == Some(doc.context)
    ensures DocMember(c, doc, "id") == Some(Str(doc.id))
    ensures DocMember(c, doc, "alsoKnownAs") == PrintArray(doc.alsoKnownAs, StringPrinter())
    ensures DocMember(c, doc, "controller")
         == if doc.controller == [] then None else Some(StringOrArrayValue(doc.controller))
    ensures DocMember(c, doc, "verificationMethod") == PrintArray(doc.verificationMethod, VmPrinter(c))
    ensures DocMember(c, doc, "authentication") == PrintArray(doc.authentication, VmOrRefPrinter(c))
    ensures DocMember(c, doc, "assertionMethod") == PrintArray(doc.assertionMethod, VmOrRefPrinter(c))
    ensures DocMember(c, doc, "keyAgreement") == PrintArray(doc.keyAgreement, VmOrRefPrinter(c))
    ensures DocMember(c, doc, "capabilityInvocation") == PrintArray(doc.capabilityInvocation, VmOrRefPrinter(c))
    ensures DocMember(c, doc, "capabilityDelegation") == PrintArray(doc.capabilityDelegation, VmOrRefPrinter(c))
    ensures DocMember(c, doc, "service") == PrintArray(doc.service, ServicePrinter())
  {
    hide PrintArray;
  }

  lemma DocFromMembers(c: Crypto, doc: DidDoc, member: string -> Option<Json>)
    requires forall name :: member(name) == DocMember(c, doc, name)
    ensures DocToJson(c, doc) == Obj(Members(member, DOC_NAMES))
  {
    hide DocMember;
  }

  // --- parsing ---

  function VmFromJson(c: Crypto, v: Json): Result<VerificationMethod, DocError> {
    if !v.Obj? then Err(InvalidFieldType("verification method must be an object"))
    else
      var obj := v.members;
      var id :- RequiredString(obj, "id");
      var kind :- RequiredString(obj, "type");
      var controller :- RequiredString(obj, "controller");
      var publicKey :- ParseKeyMaterial(c, obj);
      Ok(VerificationMethod(id, kind, controller, publicKey))
  }

  function ParseKeyMaterial(c: Crypto, obj: map<string, Json>): Result<PublicKey, DocError> {
    match Lookup(obj, "publicKeyJwk")
    case Some(v) =>
      var jwk :- JwkFromJson(v);
      Ok(Jwk(jwk))
    case None =>
      match Obj(obj).GetStr("publicKeyMultibase")
      case Some(text) =>
        (match DecodeMultibase(c, text)
         case Ok(key) => Ok(Multibase(key))
         case Err(_) => Err(InvalidFormat("unsupported or invalid multibase string")))
      case None =>
        Err(MissingField("verification method must have 'publicKeyJwk' or 'publicKeyMultibase'"))
  }

  function VmOrRefFromJson(c: Crypto, v: Json): Result<MethodOrRef, DocError> {
    if v.Str? then Ok(Reference(v.s))
    else
      var vm :- VmFromJson(c, v);
      Ok(Embedded(vm))
  }

  function StringOrArray(v: Json, key: string): Result<seq<string>, DocError> {
    match v
    case Str(s) => Ok([s])
    case Arr(items) => ParseStrings(items, key)
    case _ => Err(InvalidFieldType("'" + key + "' must be a string or array of strings"))
  }

  function OptionalStringOrArray(obj: map<string, Json>, key: string): Result<seq<string>, DocError> {
    match Lookup(obj, key)
    case None => Ok([])
    case Some(v) => StringOrArray(v, key)
  }

  function ServiceFromJson(v: Json): Result<Service, DocError> {
    if !v.Obj? then Err(InvalidFieldType("service must be an object"))
    else
      var obj := v.members;
      var id :- RequiredString(obj, "id");
      var kind :- (if "type" in obj then Ok(obj["type"]) else Err(MissingField("service 'type'")));
      var kinds :- StringOrArray(kind, "type");
      var endpoint :- (if "serviceEndpoint" in obj then Ok(obj["serviceEndpoint"])
                       else Err(MissingField("serviceEndpoint")));
      Ok(Service(id, kinds, endpoint))
  }

  function VmParser(c: Crypto): Json -> Result<VerificationMethod, DocError> {
    v => VmFromJson(c, v)
  }

  function VmOrRefParser(c: Crypto): Json -> Result<MethodOrRef, DocError> {
    v => VmOrRefFromJson(c, v)
  }

  function ServiceParser(): Json -> Result<Service, DocError> {
    v => ServiceFromJson(v)
  }

  function ParseArray<T>(obj: map<string, Json>, key: string, parse: Json -> Result<T, DocError>)
    : Result<seq<T>, DocError>
  {
    match Lookup(obj, key)
    case None => Ok([])
    case Some(v) =>
      if v.Arr? then ParseAll(v.items, parse) else Err(InvalidFieldType("'" + key + "' must be an array"))
  }

  function DocFromJson(c: Crypto, v: Json): Result<DidDoc, DocError> {
    if !v.Obj? then Err(InvalidFormat("DID document must be a JSON object"))
    else
      var obj := v.members;
      var context :- (if "@context" in obj then Ok(obj["@context"]) else Err(MissingField("@context")));
      var id :- RequiredString(obj, "id");
      var alsoKnownAs :- OptionalStringOrArray(obj, "alsoKnownAs");
      var controller :- OptionalStringOrArray(obj, "controller");
      var verificationMethod :- ParseArray(obj, "verificationMethod", VmParser(c));
      var authentication :- ParseArray(obj, "authentication", VmOrRefParser(c));
      var assertionMethod :- ParseArray(obj, "assertionMethod", VmOrRefParser(c));
      var keyAgreement :- ParseArray(obj, "keyAgreement", VmOrRefParser(c));
      var capabilityInvocation :- ParseArray(obj, "capabilityInvocation", VmOrRefParser(c));
      var capabilityDelegation :- ParseArray(obj, "capabilityDelegation", VmOrRefParser(c));
      var service :- ParseArray(obj, "service", ServiceParser());
      Ok(DidDoc(context, id, alsoKnownAs, controller, verificationMethod, authentication, assertionMethod,
                keyAgreement, capabilityInvocation, capabilityDelegation, service))
  }

  // --- printing and parsing undo each other ---

  lemma PrintedVmMember(c: Crypto, vm: VerificationMethod, name: string)
    requires name in VM_NAMES
    ensures Lookup(VmToJson(c, vm).members, name) == VmMember(c, vm, name)
  {
    hide VmMember;
  }

  lemma ParsePrintedVm(c: Crypto, vm: VerificationMethod)
    requires Lawful(c)
    ensures VmFromJson(c, VmToJson(c, vm)) == Ok(vm)
  {
    hide VmToJson, Lookup, JwkToJson, JwkFromJson, DecodeMultibase;
    PrintedVmMember(c, vm, "id");
    PrintedVmMember(c, vm, "type");
    PrintedVmMember(c, vm, "controller");
    PrintedVmMember(c, vm, "publicKeyJwk");
    PrintedVmMember(c, vm, "publicKeyMultibase");
    match vm.publicKey
    case Jwk(jwk) => ParsePrintedJwk(jwk);
    case Multibase(key) => MultibaseRoundTrip(c, key);
  }

  lemma ParsePrintedVmOrRef(c: Crypto, v: MethodOrRef)
    requires Lawful(c)
    ensures VmOrRefFromJson(c, VmOrRefToJson(c, v)) == Ok(v)
  {
    if v.Embedded? {
      ParsePrintedVm(c, v.vm);
    }
  }

  lemma ParsePrintedStringOrArray(values: seq<string>, key: string)
    ensures StringOrArray(StringOrArrayValue(values), key) == Ok(values)
  {
    if |values| == 1 {
      assert values == [values[0]];
    } else {
      ParsePrintedStrings(values, key);
    }
  }

  lemma ParsePrintedService(s: Service)
    ensures ServiceFromJson(ServiceToJson(s)) == Ok(s)
  {
    ParsePrintedStringOrArray(s.kinds, "type");
    hide StringOrArray, StringOrArrayValue;
  }

  lemma PrintedDocMember(c: Crypto, doc: DidDoc, name: string)
    requires name in DOC_NAMES
    ensures Lookup(DocToJson(c, doc).members, name) == DocMember(c, doc, name)
  {
    hide DocMember;
  }

  lemma ParsePrintedArray<T>(obj: map<string, Json>, key: string, values: seq<T>, print_: T -> Json,
                             parse: Json -> Result<T, DocError>)
    requires Lookup(obj, key) == PrintArray(values, print_)
    requires forall i | 0 <= i < |values| :: parse(print_(values[i])) == Ok(values[i])
    ensures ParseArray(obj, key, parse) == Ok(values)
  {
    ParseAllOf(values, print_, parse);
  }

  lemma ParsePrintedRefs(c: Crypto, doc: DidDoc, name: string, values: seq<MethodOrRef>)
    requires Lawful(c) && name in DOC_NAMES && DocMember(c, doc, name) == PrintArray(values, VmOrRefPrinter(c))
    ensures ParseArray(DocToJson(c, doc).members, name, VmOrRefParser(c)) == Ok(values)
  {
    hide DocToJson, DocMember, Lookup, PrintArray, ParseArray;
    PrintedDocMember(c, doc, name);
    forall i | 0 <= i < |values| ensures VmOrRefParser(c)(VmOrRefPrinter(c)(values[i])) == Ok(values[i]) {
      ParsePrintedVmOrRef(c, values[i]);
    }
    ParsePrintedArray(DocToJson(c, doc).members, name, values, VmOrRefPrinter(c), VmOrRefParser(c));
  }

  lemma ParsePrintedNames(c: Crypto, doc: DidDoc)
    ensures var obj := DocToJson(c, doc).members;
      && Lookup(obj, "@context") == Some(doc.context)
      && RequiredString(obj, "id") == Ok(doc.id)
      && OptionalStringOrArray(obj, "alsoKnownAs") == Ok(doc.alsoKnownAs)
      && OptionalStringOrArray(obj, "controller") == Ok(doc.controller)
  {
    hide DocToJson, Lookup, StringOrArray, StringOrArrayValue;
    PrintedDocMember(c, doc, "@context");
    PrintedDocMember(c, doc, "id");
    PrintedDocMember(c, doc, "alsoKnownAs");
    PrintedDocMember(c, doc, "controller");
    ParsePrintedStringOrArray(doc.controller, "controller");
    StringsAsArray(doc.alsoKnownAs, "alsoKnownAs");
  }

  lemma StringsAsArray(values: seq<string>, key: string)
    ensures StringOrArray(Arr(PrintAll(values, StringPrinter())), key) == Ok(values)
  {
    ParsePrintedStrings(values, key);
    assert PrintStrings(values) == Arr(PrintAll(values, StringPrinter()));
  }

  lemma ParsePrintedKeysAndServices(c: Crypto, doc: DidDoc)
    requires Lawful(c)
    ensures var obj := DocToJson(c, doc).members;
      && ParseArray(obj, "verificationMethod", VmParser(c)) == Ok(doc.verificationMethod)
      && ParseArray(obj, "service", ServiceParser()) == Ok(doc.service)
  {
    hide DocToJson, Lookup, PrintArray, ParseArray;
    var obj := DocToJson(c, doc).members;
    PrintedDocMember(c, doc, "verificationMethod");
    PrintedDocMember(c, doc, "service");
    forall vm ensures VmParser(c)(VmPrinter(c)(vm)) == Ok(vm) {
      ParsePrintedVm(c, vm);
    }
    forall s ensures ServiceParser()(ServicePrinter()(s)) == Ok(s) {
      ParsePrintedService(s);
    }
    ParsePrintedArray(obj, "verificationMethod", doc.verificationMethod, VmPrinter(c), VmParser(c));
    ParsePrintedArray(obj, "service", doc.service, ServicePrinter(), ServiceParser());
  }

  /** Printing a document and parsing it gives the document back. */
  lemma ParsePrintedDoc(c: Crypto, doc: DidDoc)
    requires Lawful(c)
    ensures DocFromJson(c, DocToJson(c, doc)) == Ok(doc)
    ensures DocToJson(c, doc).GetStr("id") == Some(doc.id)
  {
    var v := DocToJson(c, doc);
    ParsePrintedNames(c, doc);
    assert "@context" in v.members && v.members["@context"] == doc.context;
    PrintedDocMember(c, doc, "id");
    ParsePrintedKeysAndServices(c, doc);
    ParsePrintedRefs(c, doc, "authentication", doc.authentication);
    ParsePrintedRefs(c, doc, "assertionMethod", doc.assertionMethod);
    ParsePrintedRefs(c, doc, "keyAgreement", doc.keyAgreement);
    ParsePrintedRefs(c, doc, "capabilityInvocation", doc.capabilityInvocation);
    ParsePrintedRefs(c, doc, "capabilityDelegation", doc.capabilityDelegation);
    hide DocToJson, RequiredString, OptionalStringOrArray, ParseArray, VmParser, VmOrRefParser, ServiceParser;
  }
}
