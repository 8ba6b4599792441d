/**
 Typed log entries and their JSON forms: the five-element array of did:tdw 0.3 and the object of
 did:webvh 1.0 (swiyu-core/src/didlog/mod.rs).
 */
module LogEntry {
  import opened Basics
  import opened Text
  import opened Json
  import opened Crypto
  import opened Scid
  import opened DidDoc
  import PublicKeys

  datatype Format = Tdw03 | WebVh10

  datatype LogError = InvalidFormat(msg: string) | MissingField(field: string) | InvalidFieldType(msg: string)

  // --- optional typed members of an object ---

  function StringField(obj: map<string, Json>, key: string): Result<Option<string>, LogError> {
    match Lookup(obj, key)
    case None => Ok(None)
    case Some(v) =>
      if v.Str? then Ok(Some(v.s)) else Err(InvalidFieldType("'" + key + "' must be a string"))
  }

  function BoolField(obj: map<string, Json>, key: string): Result<Option<bool>, LogError> {
    match Lookup(obj, key)
    case None => Ok(None)
    case Some(v) =>
      if v.Bool? then Ok(Some(v.b)) else Err(InvalidFieldType("'" + key + "' must be a boolean"))
  }

  function U64Field(obj: map<string, Json>, key: string): Result<Option<u64>, LogError> {
    match Lookup(obj, key)
    case None => Ok(None)
    case Some(v) =>
      match v.AsU64()
      case Some(n) => Ok(Some(n))
      case None => Err(InvalidFieldType("'" + key + "' must be a number"))
  }

  function StringElements(items: seq<Json>, key: string): Result<seq<string>, LogError> {
    if items == [] then Ok([])
    else if !items[0].Str? then Err(InvalidFieldType("'" + key + "' elements must be strings"))
    else
      var rest :- StringElements(items[1..], key);
      Ok([items[0].s] + rest)
  }

  function StringArrayField(obj: map<string, Json>, key: string): Result<Option<seq<string>>, LogError> {
    match Lookup(obj, key)
    case None => Ok(None)
    case Some(v) =>
      if !v.Arr? then Err(InvalidFieldType("'" + key + "' must be an array"))
      else
        var strings :- StringElements(v.items, key);
        Ok(Some(strings))
  }

  lemma {:induction false} StringElementsOf(values: seq<string>, key: string)
    ensures StringElements(Strings(values), key) == Ok(values)
  {
    if values == [] {
      assert Strings(values) == [];
    } else {
      var items := Strings(values);
      assert items[0] == Str(values[0]) && items[1..] == Strings(values[1..]);
      StringElementsOf(values[1..], key);
      assert [values[0]] + values[1..] == values;
    }
  }

  // --- printed optional members ---

  function OfString(v: Option<string>): Option<Json> {
    if v.Some? then Some(Str(v.value)) else None
  }

  function OfStrings(v: Option<seq<string>>): Option<Json> {
    if v.Some? then Some(Arr(Strings(v.value))) else None
  }

  function OfBool(v: Option<bool>): Option<Json> {
    if v.Some? then Some(Bool(v.value)) else None
  }

  function OfU64(v: Option<u64>): Option<Json> {
    if v.Some? then Some(Int(v.value)) else None
  }

  // --- DID document state ---

  datatype DocState = Value(doc: Json) | Patch(patch: Json) {
    function ToJson(): Json {
      match this
      case Value(doc) => Obj(map["value" := doc])
      case Patch(patch) => Obj(map["patch" := patch])
    }
  }

  function DocStateFromJson(v: Json): Result<DocState, LogError> {
    if !v.Obj? then Err(InvalidFieldType("DIDDocState must be a JSON object"))
    else if "value" in v.members then Ok(Value(v.members["value"]))
    else if "patch" in v.members then Ok(Patch(v.members["patch"]))
    else Err(InvalidFormat("DIDDocState must contain 'value' or 'patch'"))
  }

  // --- parameters ---

  const PARAMETER_NAMES := {
    "method", "scid", "updateKeys", "prerotation", "nextKeyHashes", "portable", "deactivated", "ttl",
    "witness", "watchers"
  }

  datatype LogParameters = LogParameters(
    format: Format,
    methodName: Option<string>,
    scid: Option<string>,
    updateKeys: Option<seq<string>>,
    prerotation: Option<bool>,
    nextKeyHashes: Option<seq<string>>,
    portable: Option<bool>,
    deactivated: Option<bool>,
    ttl: Option<u64>,
    witnessConfig: Option<Json>,
    watchers: Option<seq<string>>
  ) {
    predicate IsTdwGenesis() {
      format == Tdw03 && scid.Some?
    }

    /** `portable` is printed on did:tdw genesis parameters even when unset. */
    function PrintedPortable(): Option<bool> {
      if portable.None? && IsTdwGenesis() then Some(false) else portable
    }

    function PrintedWatchers(): Option<seq<string>> {
      if format == WebVh10 then watchers else None
    }

    /** What one print and parse makes of the parameters. */
    function Normalise(): LogParameters {
      this.(portable := PrintedPortable(), watchers := PrintedWatchers())
    }

    /** The value inserted under a member name, if any. */
    function Member(name: string): Option<Json> {
      if name == "method" then OfString(methodName)
      else if name == "scid" then OfString(scid)
      else if name == "updateKeys" then OfStrings(updateKeys)
      else if name == "prerotation" then OfBool(prerotation)
      else if name == "nextKeyHashes" then OfStrings(nextKeyHashes)
      else if name == "portable" then OfBool(PrintedPortable())
      else if name == "deactivated" then OfBool(deactivated)
      else if name == "ttl" then OfU64(ttl)
      else if name == "witness" then witnessConfig
      else if name == "watchers" then OfStrings(PrintedWatchers())
      else None
    }

    function ToJson(): Json {
      Obj(map name | name in PARAMETER_NAMES && Member(name).Some? :: Member(name).value)
    }
  }

  /** Parameters with nothing set. */
  function NoParameters(format: Format): LogParameters {
    LogParameters(format, None, None, None, None, None, None, None, None, None, None)
  }

  /** The printer as the code runs it, inserting one member after the other. */
  method PrintParameters(p: LogParameters) returns (r: Json)
    ensures r == p.ToJson()
  {
    hide Members, LogParameters.Member, Put;
    ParameterMembers(p);
    NoMembers(p.Member);
    ghost var member, seen := p.Member, {};
    var m: map<string, Json> := map[];
    m := Put(m, "method", OfString(p.methodName));
    seen := Inserted(member, seen, "method");
    m := Put(m, "scid", OfString(p.scid));
    seen := Inserted(member, seen, "scid");
    m := Put(m, "updateKeys", OfStrings(p.updateKeys));
    seen := Inserted(member, seen, "updateKeys");
    m := Put(m, "prerotation", OfBool(p.prerotation));
    seen := Inserted(member, seen, "prerotation");
    m := Put(m, "nextKeyHashes", OfStrings(p.nextKeyHashes));
    seen := Inserted(member, seen, "nextKeyHashes");
    var portable := p.portable;
    if portable.None? && p.IsTdwGenesis() {
      portable := Some(false);
    }
    m := Put(m, "portable", OfBool(portable));
    seen := Inserted(member, seen, "portable");
    m := Put(m, "deactivated", OfBool(p.deactivated));
    seen := Inserted(member, seen, "deactivated");
    m := Put(m, "ttl", OfU64(p.ttl));
    seen := Inserted(member, seen, "ttl");
    m := Put(m, "witness", p.witnessConfig);
    seen := Inserted(member, seen, "witness");
    var watchers := if p.format == WebVh10 then p.watchers else None;
    m := Put(m, "watchers", OfStrings(watchers));
    seen := Inserted(member, seen, "watchers");
    assert seen == PARAMETER_NAMES;
    ParametersFromMembers(p);
    r := Obj(m);
  }

  lemma ParameterMembers(p: LogParameters)
    ensures p.Member("method") == OfString(p.methodName) && p.Member("scid") == OfString(p.scid)
    ensures p.Member("updateKeys") == OfStrings(p.updateKeys) && p.Member("prerotation") == OfBool(p.prerotation)
    ensures p.Member("nextKeyHashes") == OfStrings(p.nextKeyHashes)
    ensures p.Member("portable") == OfBool(p.PrintedPortable())
    ensures p.Member("deactivated") == OfBool(p.deactivated) && p.Member("ttl") == OfU64(p.ttl)
    ensures p.Member("witness") == p.witnessConfig && p.Member("watchers") == OfStrings(p.PrintedWatchers())
  {
  }

  lemma ParametersFromMembers(p: LogParameters)
    ensures p.ToJson() == Obj(Members(p.Member, PARAMETER_NAMES))
  {
    hide LogParameters.Member;
  }

  function ParametersFromJson(v: Json, format: Format): Result<LogParameters, LogError> {
    if !v.Obj? then Err(InvalidFieldType("parameters must be a JSON object"))
    else
      var obj := v.members;
      var methodName :- StringField(obj, "method");
      var scid :- StringField(obj, "scid");
      var updateKeys :- StringArrayField(obj, "updateKeys");
      var prerotation :- BoolField(obj, "prerotation");
      var nextKeyHashes :- StringArrayField(obj, "nextKeyHashes");
      var portable :- BoolField(obj, "portable");
      var deactivated :- BoolField(obj, "deactivated");
      var ttl :- U64Field(obj, "ttl");
      var watchers :- (if format == WebVh10 then StringArrayField(obj, "watchers") else Ok(None));
      Ok(LogParameters(format, methodName, scid, updateKeys, prerotation, nextKeyHashes, portable,
                       deactivated, ttl, Lookup(obj, "witness"), watchers))
  }

  lemma PrintedMember(p: LogParameters, name: string)
    ensures Lookup(p.ToJson().members, name) == if name in PARAMETER_NAMES then p.Member(name) else None
  {
    hide LogParameters.Member;
  }

  lemma ParsePrintedScalars(p: LogParameters)
    ensures var m := p.ToJson().members;
      && StringField(m, "method") == Ok(p.methodName)
      && StringField(m, "scid") == Ok(p.scid)
      && BoolField(m, "prerotation") == Ok(p.prerotation)
      && BoolField(m, "portable") == Ok(p.PrintedPortable())
      && BoolField(m, "deactivated") == Ok(p.deactivated)
      && U64Field(m, "ttl") == Ok(p.ttl)
      && Lookup(m, "witness") == p.witnessConfig
  {
    hide LogParameters.ToJson, Lookup;
    PrintedMember(p, "method");
    PrintedMember(p, "scid");
    PrintedMember(p, "prerotation");
    PrintedMember(p, "portable");
    PrintedMember(p, "deactivated");
    PrintedMember(p, "ttl");
    PrintedMember(p, "witness");
  }

  lemma ParsePrintedStrings(p: LogParameters, name: string, values: Option<seq<string>>)
    requires name in PARAMETER_NAMES && p.Member(name) == OfStrings(values)
    ensures StringArrayField(p.ToJson().members, name) == Ok(values)
  {
    hide LogParameters.ToJson, LogParameters.Member, Lookup;
    PrintedMember(p, name);
    if values.Some? {
      StringElementsOf(values.value, name);
    }
  }

  /** One print and parse only fills `portable` on tdw genesis parameters and drops tdw `watchers`. */
  lemma ParsePrintedParameters(p: LogParameters)
    ensures ParametersFromJson(p.ToJson(), p.format) == Ok(p.Normalise())
  {
    ParsePrintedScalars(p);
    ParsePrintedStrings(p, "updateKeys", p.updateKeys);
    ParsePrintedStrings(p, "nextKeyHashes", p.nextKeyHashes);
    ParsePrintedStrings(p, "watchers", p.PrintedWatchers());
    hide LogParameters.ToJson, StringField, BoolField, U64Field, StringArrayField, Lookup;
  }

  /** Printing again what was printed and parsed gives the same value, so its hash is stable. */
  lemma NormalisedPrintsTheSame(p: LogParameters)
    ensures p.Normalise().ToJson() == p.ToJson()
  {
    forall name ensures p.Normalise().Member(name) == p.Member(name) {
    }
  }

  // --- entries ---

  datatype LogEntry = LogEntry(
    format: Format,
    versionId: string,
    versionTime: string,
    parameters: LogParameters,
    state: DocState,
    proofs: seq<Json>
  ) {
    function ToJson(): Json {
      match format
      case Tdw03 =>
        Arr([Str(versionId), Str(versionTime), parameters.ToJson(), state.ToJson(), Arr(proofs)])
      case WebVh10 =>
        Obj(map["versionId" := Str(versionId), "versionTime" := Str(versionTime),
                "parameters" := parameters.ToJson(), "state" := state.ToJson(), "proof" := Arr(proofs)])
    }

    function Normalise(): LogEntry {
      this.(parameters := parameters.Normalise())
    }
  }

  function EntryFromJson(v: Json): Result<LogEntry, LogError> {
    match v
    case Arr(items) => EntryFromArray(items)
    case Obj(obj) => EntryFromObject(obj)
    case _ => Err(InvalidFormat("log entry must be a JSON array (v0.3) or object (v1.0)"))
  }

  function EntryFromArray(arr: seq<Json>): Result<LogEntry, LogError> {
    if |arr| != 5 then
      Err(InvalidFormat("v0.3 log entry must have exactly 5 elements, got " + Decimal(|arr|)))
    else if !arr[0].Str? then Err(InvalidFieldType("versionId must be a string"))
    else if !arr[1].Str? then Err(InvalidFieldType("versionTime must be a string"))
    else
      var parameters :- ParametersFromJson(arr[2], Tdw03);
      var state :- DocStateFromJson(arr[3]);
      if !arr[4].Arr? then Err(InvalidFieldType("DataIntegrityProof must be a JSON array"))
      else Ok(LogEntry(Tdw03, arr[0].s, arr[1].s, parameters, state, arr[4].items))
  }

  function Required<T>(v: Option<T>, key: string): Result<T, LogError> {
    match v
    case Some(value) => Ok(value)
    case None => Err(MissingField(key))
  }

  function EntryFromObject(obj: map<string, Json>): Result<LogEntry, LogError> {
    var idField :- StringField(obj, "versionId");
    var versionId :- Required(idField, "versionId");
    var timeField :- StringField(obj, "versionTime");
    var versionTime :- Required(timeField, "versionTime");
    var parametersField :- Required(Lookup(obj, "parameters"), "parameters");
    var parameters :- ParametersFromJson(parametersField, WebVh10);
    var stateField :- Required(Lookup(obj, "state"), "state");
    var state :- DocStateFromJson(stateField);
    var proof :- Required(Lookup(obj, "proof"), "proof");
    if !proof.Arr? then Err(InvalidFieldType("proof must be a JSON array"))
    else Ok(LogEntry(WebVh10, versionId, versionTime, parameters, state, proof.items))
  }

  /** Printing and parsing an entry only normalises its parameters, and does not change its printed form. */
  lemma ParsePrintedEntry(e: LogEntry)
    requires e.parameters.format == e.format
    ensures EntryFromJson(e.ToJson()) == Ok(e.Normalise())
    ensures e.Normalise().ToJson() == e.ToJson()
  {
    ParsePrintedParameters(e.parameters);
    NormalisedPrintsTheSame(e.parameters);
    hide LogParameters.ToJson, LogParameters.Normalise, ParametersFromJson;
    assert DocStateFromJson(e.state.ToJson()) == Ok(e.state);
  }

  /** An accepted entry has parameters of its own format, and printing it twice gives the same value. */
  lemma ParsedEntryIsStable(v: Json)
    requires EntryFromJson(v).Ok?
    ensures var e := EntryFromJson(v).value;
            e.parameters.format == e.format && EntryFromJson(e.ToJson()) == Ok(e.Normalise())
  {
    hide LogParameters.ToJson, LogParameters.Normalise;
    ParsePrintedEntry(EntryFromJson(v).value);
  }

  /** `DIDLogEntry::new_genesis`: the first entry, with `{SCID}` wherever the SCID will go. */
  function NewGenesisEntry(c: Crypto, format: Format, authorizedMultikey: string, didPlaceholder: string,
                           authentication: PublicKeys.P256PublicKey, assertion: PublicKeys.P256PublicKey, now: string)
    : LogEntry
  {
    var methodName := if format == Tdw03 then "did:tdw:0.3" else "did:webvh:1.0";
    var parameters := NoParameters(format).(
      methodName := Some(methodName), scid := Some(PLACEHOLDER), updateKeys := Some([authorizedMultikey]));
    var doc := DocToJson(c, NewGenesis(c, didPlaceholder, authentication, assertion));
    LogEntry(format, PLACEHOLDER, now, parameters, Value(doc), [])
  }
}
