/**
 What `did create`, `did rotate` and `did deactivate` build, as functions on values
 (swiyu-didtool/src/cmd/did/create.rs, rotate.rs and deactivate.rs).
 */
module Producer {
  import opened Basics
  import opened Json
  import opened Crypto
  import opened Scid
  import opened PublicKeys
  import opened LogEntry
  import opened EntryEdits
  import opened Jsonl
  import opened KeyStore
  import opened VersionTime
  import opened LogVerifier
  import opened LogSecurity
  import DidDoc
  import Did
  import DidUrl
  import Proof

  /** The libraries and the parts of the environment that the commands use. */
  datatype Tool = Tool(
    crypto: Crypto,
    text: JsonText,
    time: TimeText,
    didHash: string -> string,
    p256Public: Bytes -> P256PublicKey,
    readKey: string -> Option<Bytes>)

  ghost predicate LawfulTool(tool: Tool) {
    Lawful(tool.crypto) && LawfulText(tool.text) && LawfulTime(tool.time)
  }

  function AuthorizedMultikey(tool: Tool, keys: KeySet): string {
    Multikey(tool.crypto, tool.crypto.edPublic(keys.authorized))
  }

  function SignedProof(tool: Tool, signer: KeySet, document: Json, purpose: Proof.ProofPurpose, versionId: string,
                       time: string): Json {
    var mk := AuthorizedMultikey(tool, signer);
    Proof.ProofToJson(Proof.Sign(tool.crypto, signer.authorized, document,
      Proof.ProofConfig("did:key:" + (mk + "#" + mk), purpose, versionId, time)))
  }

  /** The document of a DID that lists the public keys of a snapshot. */
  function KeyDocument(tool: Tool, did: string, keys: KeySet): Json {
    DidDoc.DocToJson(tool.crypto,
      DidDoc.NewGenesis(tool.crypto, did, tool.p256Public(keys.authentication), tool.p256Public(keys.assertion)))
  }

  /** One proof, made for authentication, that names the entry it stands in and the entry's time. */
  predicate ProofNamesEntry(e: LogEntry) {
    && |e.proofs| == 1
    && var proof := Proof.ProofFromJson(e.proofs[0]);
    && proof.Ok? && proof.value.config.purpose == Proof.Authentication
    && proof.value.config.challenge == e.versionId && proof.value.config.created == e.versionTime
  }

  lemma SignedProofNamesEntry(tool: Tool, e: LogEntry, signer: KeySet, document: Json)
    requires e.proofs == [SignedProof(tool, signer, document, Proof.Authentication, e.versionId, e.versionTime)]
    ensures ProofNamesEntry(e)
  {
    hide Proof.ProofFromJson, Proof.ProofToJson;
    var mk := AuthorizedMultikey(tool, signer);
    Proof.ParsePrintedProof(Proof.Sign(tool.crypto, signer.authorized, document,
      Proof.ProofConfig("did:key:" + (mk + "#" + mk), Proof.Authentication, e.versionId, e.versionTime)));
  }

  // --- create ---

  function KindOf(format: Format): Did.Method {
    if format == Tdw03 then Did.Tdw else Did.WebVh
  }

  function PurposeOf(format: Format): Proof.ProofPurpose {
    if format == Tdw03 then Proof.Authentication else Proof.AssertionMethod
  }

  /** `v[3]["value"]` or `v["state"]["value"]`; indexing what is not there gives null. */
  function DocumentIn(v: Json, format: Format): Json {
    var state := match format
      case Tdw03 => if v.Arr? && |v.items| > 3 then v.items[3] else Null
      case WebVh10 => if v.Get("state").Some? then v.Get("state").value else Null;
    if state.Get("value").Some? then state.Get("value").value else Null
  }

  datatype CreateError =
    | Url(url: DidUrl.UrlError)
    | KeyFile(role: Role)
    | IdenticalKeys
    | BadDid(did: Did.DidError)
    | Store(store: StoreError)

  function PreparedKey(tool: Tool, file: Option<string>, role: Role, generated: Bytes): Result<Bytes, CreateError> {
    match file
    case None => Ok(generated)
    case Some(f) => (match tool.readKey(f) case Some(key) => Ok(key) case None => Err(KeyFile(role)))
  }

  /** `prepare_keys`: two key files for the document must hold different keys. */
  function PreparedKeys(tool: Tool, files: KeyFiles, generated: KeySet): Result<KeySet, CreateError> {
    var authorized :- PreparedKey(tool, files.authorized, Authorized, generated.authorized);
    var authentication :- PreparedKey(tool, files.authentication, Authentication, generated.authentication);
    var assertion :- PreparedKey(tool, files.assertion, Assertion, generated.assertion);
    if files.authentication.Some? && files.assertion.Some?
       && tool.p256Public(authentication) == tool.p256Public(assertion)
    then Err(IdenticalKeys)
    else Ok(KeySet(authorized, authentication, assertion))
  }

  datatype Created = Created(did: Did.Did, entry: Json)

  /** The genesis entry with placeholders, without proof slot. */
  function PreliminaryEntry(tool: Tool, format: Format, placeholderDid: string, keys: KeySet, now: string): Json {
    WithoutProofSlot(
      NewGenesisEntry(tool.crypto, format, AuthorizedMultikey(tool, keys), placeholderDid,
                      tool.p256Public(keys.authentication), tool.p256Public(keys.assertion), now).ToJson(),
      format)
  }

  function CreatedEntry(tool: Tool, format: Format, domain: string, path: Option<string>, keys: KeySet, now: string)
    : Result<Created, Did.DidError>
  {
    var placeholder :- Did.TryNew(KindOf(format), None, domain, path);
    var prelim := PreliminaryEntry(tool, format, placeholder.ToString(), keys, now);
    var scid := HashLogEntry(tool.crypto, prelim);
    var withScid := ReplaceStrings(prelim, PLACEHOLDER, scid);
    var versionId := "1-" + HashLogEntry(tool.crypto, withScid);
    var entry := WithVersionId(withScid, versionId, format);
    var did :- Did.TryNew(KindOf(format), Some(scid), domain, path);
    var proof := SignedProof(tool, keys, DocumentIn(entry, format), PurposeOf(format), versionId, now);
    Ok(Created(did, WithProof(entry, proof, format)))
  }

  /** `now_iso8601`. */
  function NowText(tool: Tool, now: int): string {
    tool.time.print_(Backdated(now) / NANOS)
  }

  function LogLine(tool: Tool, entry: Json): string {
    tool.text.print_(entry) + "\n"
  }

  /** The log text and the key store after a successful create. */
  function CreateResult(tool: Tool, dirs: map<string, EntryDir>, url: string, format: Format, keys: KeySet, now: int)
    : Result<(Did.Did, string, map<string, EntryDir>), CreateError>
  {
    match DidUrl.UrlToDidComponents(url)
    case Err(e) => Err(Url(e))
    case Ok((domain, path)) =>
      match CreatedEntry(tool, format, domain, path, keys, NowText(tool, now))
      case Err(e) => Err(BadDid(e))
      case Ok(created) =>
        var didStr := created.did.ToString();
        var hash := tool.didHash(didStr);
        if hash in dirs then Err(Store(AlreadyExists(hash)))
        else Ok((created.did, LogLine(tool, created.entry), dirs[hash := NewEntry(didStr, keys)]))
  }

  /** The whole command: a bad URL is reported before a bad key file. */
  function CreateOutcome(tool: Tool, dirs: map<string, EntryDir>, url: string, format: Format, files: KeyFiles,
                         generated: KeySet, now: int): Result<(Did.Did, string, map<string, EntryDir>), CreateError>
  {
    match DidUrl.UrlToDidComponents(url)
    case Err(e) => Err(Url(e))
    case Ok(_) =>
      var keys :- PreparedKeys(tool, files, generated);
      CreateResult(tool, dirs, url, format, keys, now)
  }

  /** The log text that create writes, also when the key store then turns out to know the DID already. */
  function CreateText(tool: Tool, url: string, format: Format, files: KeyFiles, generated: KeySet, now: int)
    : Option<string>
  {
    match DidUrl.UrlToDidComponents(url)
    case Err(_) => None
    case Ok((domain, path)) =>
      match PreparedKeys(tool, files, generated)
      case Err(_) => None
      case Ok(keys) =>
        match CreatedEntry(tool, format, domain, path, keys, NowText(tool, now))
        case Err(_) => None
        case Ok(created) => Some(LogLine(tool, created.entry))
  }

  // --- the successor entry shared by rotate and deactivate ---

  /** The four-element entry that is hashed: slot 0 holds the previous versionId. */
  function SuccessorBody(prevVersionId: string, time: string, parameters: Json, document: Json): seq<Json> {
    [Str(prevVersionId), Str(time), parameters, Obj(map["value" := document])]
  }

  function SuccessorId(tool: Tool, length: nat, body: seq<Json>): string {
    SeqPrefix(length) + HashLogEntry(tool.crypto, Arr(body))
  }

  function Successor(tool: Tool, entries: seq<LogEntry>, time: string, parameters: Json, document: Json, signer: KeySet)
    : Json
    requires entries != []
  {
    var body := SuccessorBody(entries[|entries| - 1].versionId, time, parameters, document);
    var versionId := SuccessorId(tool, |entries|, body);
    Arr(body[0 := Str(versionId)] + [Arr([SignedProof(tool, signer, document, Proof.Authentication, versionId, time)])])
  }

  // --- loading ---

  datatype LoadError = Parse(parse: LogError) | Verification(verification: VerifyError)

  /** `verify_loaded_log`: did:tdw logs only, against the target DID or the one the log announces. */
  function LoadedResult(tool: Tool, entries: seq<LogEntry>, target: Option<Did.Did>): Result<(), VerifyError> {
    if entries == [] || entries[0].format != Tdw03 then Ok(())
    else
      var did := if target.Some? then target
        else match CurrentDidOf(entries)
          case None => None
          case Some(s) => (match Did.FromStr(s) case Ok(d) => Some(d) case Err(_) => None);
      if did.None? then Ok(()) else VerifyResult(tool.crypto, entries, did.value)
  }

  function LoadResult(tool: Tool, text: string, target: Option<Did.Did>): Result<seq<LogEntry>, LoadError> {
    match FromJsonl(tool.text, text)
    case Err(e) => Err(Parse(e))
    case Ok(entries) =>
      match LoadedResult(tool, entries, target)
      case Err(e) => Err(Verification(e))
      case Ok(_) => Ok(entries)
  }

  // --- rotation plan ---

  datatype Role = Authorized | Authentication | Assertion | All

  datatype Action = Keep | Generate | Import(file: string)

  datatype Plan = Plan(authorized: Action, authentication: Action, assertion: Action)

  datatype KeyFiles = KeyFiles(authorized: Option<string>, authentication: Option<string>, assertion: Option<string>)

  datatype ChangeError =
    | NoChange
    | ConflictingRotation(role: Role)
    | Load(load: LoadError)
    | EmptyLog
    | UnsupportedLogFormat
    | AlreadyDeactivated
    | PreviousStateIsPatch
    | DidNotInLog
    | InvalidDid(text: string, did: Did.DidError)
    | KeyStoreMiss(text: string)
    | StoreFailed(store: StoreError)
    | KeyImport(role: Role)

  /** What is to happen to the key of one role: a named role is generated, a key file is imported. */
  function ActionFor(role: Role, roles: seq<Role>, file: Option<string>): Result<Action, ChangeError> {
    var generate := role in roles || All in roles;
    match file
    case Some(f) => if generate then Err(ConflictingRotation(role)) else Ok(Import(f))
    case None => Ok(if generate then Generate else Keep)
  }

  function PlanOf(roles: seq<Role>, files: KeyFiles): Result<Plan, ChangeError> {
    var authorized :- ActionFor(Authorized, roles, files.authorized);
    var authentication :- ActionFor(Authentication, roles, files.authentication);
    var assertion :- ActionFor(Assertion, roles, files.assertion);
    if authorized == Keep && authentication == Keep && assertion == Keep then Err(NoChange)
    else Ok(Plan(authorized, authentication, assertion))
  }

  function StagedKey(tool: Tool, action: Action, role: Role, current: Bytes, generated: Bytes)
    : Result<Bytes, ChangeError>
  {
    match action
    case Keep => Ok(current)
    case Generate => Ok(generated)
    case Import(file) =>
      (match tool.readKey(file)
       case Some(key) => Ok(key)
       case None => Err(KeyImport(role)))
  }

  /** `stage_keys`: the complete key set of the next snapshot. */
  function StagedKeys(tool: Tool, plan: Plan, current: KeySet, generated: KeySet): Result<KeySet, ChangeError> {
    var authorized :- StagedKey(tool, plan.authorized, Authorized, current.authorized, generated.authorized);
    var authentication :- StagedKey(tool, plan.authentication, Authentication, current.authentication,
                                    generated.authentication);
    var assertion :- StagedKey(tool, plan.assertion, Assertion, current.assertion, generated.assertion);
    Ok(KeySet(authorized, authentication, assertion))
  }

  // --- rotate ---

  /** Only changed parameters are announced. */
  function RotationParameters(current: string, next: string): LogParameters {
    NoParameters(Tdw03).(updateKeys := if current == next then None else Some([next]))
  }

  function RotationEntry(tool: Tool, entries: seq<LogEntry>, did: string, current: KeySet, staged: KeySet, now: int)
    : Json
    requires entries != []
  {
    var document := KeyDocument(tool, did, staged);
    var parameters := RotationParameters(AuthorizedMultikey(tool, current), AuthorizedMultikey(tool, staged));
    Successor(tool, entries, ComputeVersionTime(tool.time, entries[|entries| - 1].versionTime, now),
              parameters.ToJson(), document, current)
  }

  /** The DID of a loaded log, its key store entry, and the keys of the latest snapshot. */
  function CurrentKeys(tool: Tool, dirs: map<string, EntryDir>, entries: seq<LogEntry>)
    : Result<(string, string, EntryDir, KeySet), ChangeError>
  {
    match CurrentDidOf(entries)
    case None => Err(DidNotInLog)
    case Some(didStr) =>
      match Did.FromStr(didStr)
      case Err(e) => Err(InvalidDid(didStr, e))
      case Ok(did) =>
        var hash := tool.didHash(did.ToString());
        match FindEntry(dirs, hash, did.ToString())
        case Err(e) => Err(StoreFailed(e))
        case Ok(None) => Err(KeyStoreMiss(didStr))
        case Ok(Some(dir)) =>
          match LatestVersion(dir)
          case None => Err(StoreFailed(NotFound(hash)))
          case Some(version) =>
            match KeysAt(dir, version)
            case None => Err(StoreFailed(NotFound(hash)))
            case Some(keys) => Ok((didStr, hash, dir, keys))
  }

  /** The log text and the key store after a successful in-place rotate. */
  function RotateResult(tool: Tool, dirs: map<string, EntryDir>, text: string, roles: seq<Role>, files: KeyFiles,
                        generated: KeySet, now: int): Result<(string, map<string, EntryDir>), ChangeError>
  {
    var plan :- PlanOf(roles, files);
    match LoadResult(tool, text, None)
    case Err(e) => Err(Load(e))
    case Ok(entries) =>
      if entries == [] then Err(EmptyLog)
      else if entries[|entries| - 1].format != Tdw03 then Err(UnsupportedLogFormat)
      else
        var (did, hash, dir, current) :- CurrentKeys(tool, dirs, entries);
        var staged :- StagedKeys(tool, plan, current, generated);
        if LatestVersion(dir).None? then Err(StoreFailed(NotFound(hash)))
        else
          var line := tool.text.print_(RotationEntry(tool, entries, did, current, staged, now));
          Ok((UpdatedLog(CollectRawLines(text), line), dirs[hash := WithNextVersion(dir, staged)]))
  }

  // --- deactivate ---

  function DeactivationParameters(): LogParameters {
    NoParameters(Tdw03).(deactivated := Some(true), updateKeys := Some([]))
  }

  function DeactivationEntry(tool: Tool, entries: seq<LogEntry>, document: Json, current: KeySet, now: int): Json
    requires entries != []
  {
    Successor(tool, entries, ComputeVersionTime(tool.time, entries[|entries| - 1].versionTime, now),
              DeactivationParameters().ToJson(), document, current)
  }

  /** The log text after a successful in-place deactivate; the key store is only read. */
  function DeactivateResult(tool: Tool, dirs: map<string, EntryDir>, text: string, now: int)
    : Result<string, ChangeError>
  {
    match LoadResult(tool, text, None)
    case Err(e) => Err(Load(e))
    case Ok(entries) =>
      if entries == [] then Err(EmptyLog)
      else
        var last := entries[|entries| - 1];
        if last.format != Tdw03 then Err(UnsupportedLogFormat)
        else if last.parameters.deactivated == Some(true) then Err(AlreadyDeactivated)
        else if last.state.Patch? then Err(PreviousStateIsPatch)
        else
          var (_, _, _, current) :- CurrentKeys(tool, dirs, entries);
          var line := tool.text.print_(DeactivationEntry(tool, entries, last.state.doc, current, now));
          Ok(UpdatedLog(CollectRawLines(text), line))
  }
}
