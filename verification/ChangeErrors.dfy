/**
 Why `rotate` and `deactivate` fail, in the order in which a caller meets the reasons
 (swiyu-didtool/src/cmd/did/rotate.rs and deactivate.rs).
 */
module ChangeErrors {
  import opened Basics
  import opened Text
  import opened LogEntry
  import opened KeyStore
  import opened LogSecurity
  import opened Producer
  import opened Rotation
  import Did

  // --- bad options ---

  predicate Conflict(role: Role, roles: seq<Role>, file: Option<string>) {
    file.Some? && (role in roles || All in roles)
  }

  predicate Unreadable(tool: Tool, file: Option<string>) {
    file.Some? && tool.readKey(file.value).None?
  }

  /** The first role that is both named and given a file; otherwise there must be something to do. */
  predicate PlanFails(roles: seq<Role>, files: KeyFiles, error: ChangeError) {
    if Conflict(Authorized, roles, files.authorized) then error == ConflictingRotation(Authorized)
    else if Conflict(Authentication, roles, files.authentication) then error == ConflictingRotation(Authentication)
    else if Conflict(Assertion, roles, files.assertion) then error == ConflictingRotation(Assertion)
    else roles == [] && files == KeyFiles(None, None, None) && error == NoChange
  }

  lemma PlanErrorIsExact(roles: seq<Role>, files: KeyFiles, error: ChangeError)
    ensures PlanOf(roles, files) == Err(error) <==> PlanFails(roles, files, error)
  {
    RolesNameSomething(roles);
  }

  /** The first role whose key file cannot be read. */
  predicate StagingFails(tool: Tool, files: KeyFiles, error: ChangeError) {
    if Unreadable(tool, files.authorized) then error == KeyImport(Authorized)
    else if Unreadable(tool, files.authentication) then error == KeyImport(Authentication)
    else Unreadable(tool, files.assertion) && error == KeyImport(Assertion)
  }

  lemma StagingErrorIsExact(tool: Tool, roles: seq<Role>, files: KeyFiles, before: KeySet, generated: KeySet,
                            error: ChangeError)
    requires PlanOf(roles, files).Ok?
    ensures StagedKeys(tool, PlanOf(roles, files).value, before, generated) == Err(error)
            <==> StagingFails(tool, files, error)
  {
  }

  // --- a log without keys ---

  /** The DID of the log, its directory, and the newest snapshot there: what is missing first. */
  predicate KeysMissing(tool: Tool, dirs: map<string, EntryDir>, entries: seq<LogEntry>, error: ChangeError) {
    match CurrentDidOf(entries)
    case None => error == DidNotInLog
    case Some(s) =>
      match Did.FromStr(s)
      case Err(e) => error == InvalidDid(s, e)
      case Ok(did) =>
        var hash := tool.didHash(did.ToString());
        if hash !in dirs then error == KeyStoreMiss(s)
        else if Trim(dirs[hash].didText) != did.ToString() then error == StoreFailed(Mismatch(hash))
        else (LatestVersion(dirs[hash]).None? || KeysAt(dirs[hash], LatestVersion(dirs[hash]).value).None?)
             && error == StoreFailed(NotFound(hash))
  }

  lemma KeysErrorIsExact(tool: Tool, dirs: map<string, EntryDir>, entries: seq<LogEntry>, error: ChangeError)
    ensures CurrentKeys(tool, dirs, entries) == Err(error) <==> KeysMissing(tool, dirs, entries, error)
  {
    hide CurrentDidOf, Did.FromStr, LatestVersion, KeysAt, Trim;
  }

  // --- the commands ---

  predicate BadPlan(roles: seq<Role>, files: KeyFiles) {
    || Conflict(Authorized, roles, files.authorized) || Conflict(Authentication, roles, files.authentication)
    || Conflict(Assertion, roles, files.assertion) || (roles == [] && files == KeyFiles(None, None, None))
  }

  /** The log, then its keys, then the key files. */
  predicate RotateFailsOn(tool: Tool, dirs: map<string, EntryDir>, text: string, files: KeyFiles, error: ChangeError) {
    match LoadResult(tool, text, None)
    case Err(e) => error == Load(e)
    case Ok(entries) =>
      if entries == [] then error == EmptyLog
      else if entries[|entries| - 1].format == WebVh10 then error == UnsupportedLogFormat
      else if CurrentKeys(tool, dirs, entries).Err? then KeysMissing(tool, dirs, entries, error)
      else StagingFails(tool, files, error)
  }

  /** A rotation fails for its options, before the log is read, or for what it then finds. */
  lemma RotateErrorIsExact(tool: Tool, dirs: map<string, EntryDir>, text: string, roles: seq<Role>, files: KeyFiles,
                           generated: KeySet, now: int, error: ChangeError)
    ensures RotateResult(tool, dirs, text, roles, files, generated, now) == Err(error) <==>
            if BadPlan(roles, files) then PlanFails(roles, files, error)
            else RotateFailsOn(tool, dirs, text, files, error)
  {
    hide LoadResult, CurrentKeys, KeysMissing, LatestVersion, RotationEntry, WithNextVersion, PlanOf, StagedKeys;
    PlanErrorIsExact(roles, files, error);
    PlanIsOk(roles, files);
    if PlanOf(roles, files).Ok? && LoadResult(tool, text, None).Ok? {
      var entries := LoadResult(tool, text, None).value;
      KeysErrorIsExact(tool, dirs, entries, error);
      if CurrentKeys(tool, dirs, entries).Ok? {
        FoundHasVersion(tool, dirs, entries);
        StagingErrorIsExact(tool, roles, files, CurrentKeys(tool, dirs, entries).value.3, generated, error);
      }
    }
  }

  lemma PlanIsOk(roles: seq<Role>, files: KeyFiles)
    ensures PlanOf(roles, files).Err? <==> BadPlan(roles, files)
  {
    RolesNameSomething(roles);
  }

  lemma FoundHasVersion(tool: Tool, dirs: map<string, EntryDir>, entries: seq<LogEntry>)
    requires CurrentKeys(tool, dirs, entries).Ok?
    ensures LatestVersion(CurrentKeys(tool, dirs, entries).value.2).Some?
  {
    hide CurrentDidOf, Did.FromStr, LatestVersion, KeysAt, Trim;
  }

  predicate DeactivateFails(tool: Tool, dirs: map<string, EntryDir>, text: string, error: ChangeError) {
    match LoadResult(tool, text, None)
    case Err(e) => error == Load(e)
    case Ok(entries) =>
      if entries == [] then error == EmptyLog
      else
        var last := entries[|entries| - 1];
        if last.format == WebVh10 then error == UnsupportedLogFormat
        else if last.parameters.deactivated == Some(true) then error == AlreadyDeactivated
        else if last.state.Patch? then error == PreviousStateIsPatch
        else KeysMissing(tool, dirs, entries, error)
  }

  lemma DeactivateErrorIsExact(tool: Tool, dirs: map<string, EntryDir>, text: string, now: int, error: ChangeError)
    ensures DeactivateResult(tool, dirs, text, now) == Err(error) <==> DeactivateFails(tool, dirs, text, error)
  {
    hide LoadResult, CurrentKeys, KeysMissing, DeactivationEntry;
    if LoadResult(tool, text, None).Ok? {
      KeysErrorIsExact(tool, dirs, LoadResult(tool, text, None).value, error);
    }
  }
}
