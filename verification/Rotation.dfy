/**
 What one rotation does to the keys and to the log (swiyu-didtool/src/cmd/did/rotate.rs): which keys are
 kept, generated and imported, what the appended entry says, and when a rotation goes through.
 */
module Rotation {
  import opened Basics
  import opened Text
  import opened Json
  import opened Crypto
  import opened LogEntry
  import opened Jsonl
  import opened KeyStore
  import opened LogVerifier
  import opened LogSecurity
  import opened Producer
  import opened LogGrowth
  import opened Lifecycle
  import Did

  // --- the keys ---

  /** A role that is named is generated, one with a key file is imported, every other one keeps its key. */
  predicate StagedFor(tool: Tool, role: Role, roles: seq<Role>, file: Option<string>, before: Bytes, generated: Bytes,
                      after: Bytes) {
    && (role !in roles && All !in roles && file.None? ==> after == before)
    && (role in roles || All in roles ==> file.None? && after == generated)
    && (file.Some? ==> tool.readKey(file.value) == Some(after))
  }

  predicate Staged(tool: Tool, roles: seq<Role>, files: KeyFiles, before: KeySet, generated: KeySet, after: KeySet) {
    && StagedFor(tool, Authorized, roles, files.authorized, before.authorized, generated.authorized, after.authorized)
    && StagedFor(tool, Authentication, roles, files.authentication, before.authentication, generated.authentication,
                 after.authentication)
    && StagedFor(tool, Assertion, roles, files.assertion, before.assertion, generated.assertion, after.assertion)
  }

  /** No role is both named and given a key file, and the file can be read. */
  predicate Stageable(tool: Tool, role: Role, roles: seq<Role>, file: Option<string>) {
    file.Some? ==> role !in roles && All !in roles && tool.readKey(file.value).Some?
  }

  /** What a caller can check of the options: they change something, without conflict, and the files are readable. */
  predicate GoodOptions(tool: Tool, roles: seq<Role>, files: KeyFiles) {
    && (roles != [] || files.authorized.Some? || files.authentication.Some? || files.assertion.Some?)
    && Stageable(tool, Authorized, roles, files.authorized)
    && Stageable(tool, Authentication, roles, files.authentication)
    && Stageable(tool, Assertion, roles, files.assertion)
  }

  lemma RolesNameSomething(roles: seq<Role>)
    ensures roles != [] <==> Authorized in roles || Authentication in roles || Assertion in roles || All in roles
  {
    if roles != [] {
      var role := roles[0];
      assert role in roles && (role == Authorized || role == Authentication || role == Assertion || role == All);
    }
  }

  /** The plan and the staging together: the keys of `Staged`, exactly for good options. */
  lemma StagingIsExact(tool: Tool, roles: seq<Role>, files: KeyFiles, before: KeySet, generated: KeySet)
    ensures var plan := PlanOf(roles, files);
      && (plan.Ok? && StagedKeys(tool, plan.value, before, generated).Ok? <==> GoodOptions(tool, roles, files))
      && (forall after :: plan.Ok? && StagedKeys(tool, plan.value, before, generated) == Ok(after)
                     <==> GoodOptions(tool, roles, files) && Staged(tool, roles, files, before, generated, after))
  {
    RolesNameSomething(roles);
  }

  // --- the appended entry ---

  /**
   The entry behind a log: its number is its position, its hash covers the versionId of its predecessor
   and everything in it but the proofs.
   */
  predicate Chained(c: Crypto, before: seq<LogEntry>, e: LogEntry)
    requires before != []
  {
    && e.format == Tdw03
    && e.versionId == Decimal((|before| + 1) % U32_LIMIT) + "-"
                      + HashLogEntry(c, Arr([Str(before[|before| - 1].versionId), Str(e.versionTime),
                                             e.parameters.ToJson(), e.state.ToJson()]))
  }

  lemma SuccessorIsChained(tool: Tool, entries: seq<LogEntry>, time: string, p: LogParameters, document: Json,
                           signer: KeySet)
    requires entries != []
    ensures Chained(tool.crypto, entries, TypedSuccessor(tool, entries, time, p, document, signer))
  {
    NumberIsPosition(|entries|);
    hide SeqPrefix, HashLogEntry, Decimal, LogParameters.ToJson, SignedProof;
  }

  /** Every rotation that goes through, on whatever log, appends one chained entry. */
  lemma RotateAppends(tool: Tool, dirs: map<string, EntryDir>, text: string, roles: seq<Role>, files: KeyFiles,
                      generated: KeySet, now: int) returns (e: LogEntry)
    requires LawfulTool(tool) && RotateResult(tool, dirs, text, roles, files, generated, now).Ok?
    ensures var before := EntriesOf(tool, text);
      && before != [] && Chained(tool.crypto, before, e)
      && EntriesOf(tool, RotateResult(tool, dirs, text, roles, files, generated, now).value.0) == before + [e]
  {
    hide *;
    var staged := RotateSteps(tool, dirs, text, roles, files, generated, now);
    var entries := EntriesOf(tool, text);
    var (did, _, _, current) := CurrentKeys(tool, dirs, entries).value;
    e := TypedRotation(tool, entries, did, current, staged, now);
    RotationParses(tool, text, entries, did, current, staged, now);
    EntriesOfParsed(tool, RotateResult(tool, dirs, text, roles, files, generated, now).value.0, entries + [e]);
    RotationIsChained(tool, entries, did, current, staged, now);
  }

  lemma EntriesOfParsed(tool: Tool, text: string, entries: seq<LogEntry>)
    requires FromJsonl(tool.text, text) == Ok(entries)
    ensures EntriesOf(tool, text) == entries
  {
  }

  lemma RotationIsChained(tool: Tool, entries: seq<LogEntry>, did: string, current: KeySet, staged: KeySet, now: int)
    requires entries != []
    ensures Chained(tool.crypto, entries, TypedRotation(tool, entries, did, current, staged, now))
  {
    hide Chained, TypedSuccessor;
    forall time, p, document {
      SuccessorIsChained(tool, entries, time, p, document, current);
    }
  }

  /** And so does every deactivation; its entry repeats the document and empties the key list. */
  lemma DeactivateAppends(tool: Tool, dirs: map<string, EntryDir>, text: string, now: int) returns (e: LogEntry)
    requires LawfulTool(tool) && DeactivateResult(tool, dirs, text, now).Ok?
    ensures var before := EntriesOf(tool, text);
      && before != [] && Chained(tool.crypto, before, e) && e.state == before[|before| - 1].state
      && e.parameters == NoParameters(Tdw03).(deactivated := Some(true), updateKeys := Some([]))
      && EntriesOf(tool, DeactivateResult(tool, dirs, text, now).value) == before + [e]
  {
    hide *;
    DeactivateSteps(tool, dirs, text, now);
    var entries := EntriesOf(tool, text);
    var document, current := entries[|entries| - 1].state.doc, CurrentKeys(tool, dirs, entries).value.3;
    e := TypedDeactivation(tool, entries, document, current, now);
    DeactivationParses(tool, text, entries, document, current, now);
    EntriesOfParsed(tool, DeactivateResult(tool, dirs, text, now).value, entries + [e]);
    DeactivationIsChained(tool, entries, document, current, now);
  }

  lemma DeactivationIsChained(tool: Tool, entries: seq<LogEntry>, document: Json, current: KeySet, now: int)
    requires entries != []
    ensures var e := TypedDeactivation(tool, entries, document, current, now);
      && Chained(tool.crypto, entries, e) && e.state == Value(document)
      && e.parameters == NoParameters(Tdw03).(deactivated := Some(true), updateKeys := Some([]))
  {
    hide Chained, SuccessorId, SuccessorBody, SignedProof;
    forall time, p {
      SuccessorIsChained(tool, entries, time, p, document, current);
    }
  }

  // --- a rotation of an active world ---

  /** `updateKeys` is announced exactly if the authorized key changed. */
  predicate AnnouncesChange(tool: Tool, before: KeySet, after: KeySet, e: LogEntry) {
    var old_, next := AuthorizedMultikey(tool, before), AuthorizedMultikey(tool, after);
    && (e.parameters.updateKeys.Some? <==> old_ != next)
    && (e.parameters.updateKeys.Some? ==> e.parameters.updateKeys.value == [next])
    && e.parameters == NoParameters(Tdw03).(updateKeys := e.parameters.updateKeys)
  }

  lemma RotationAnnounces(tool: Tool, entries: seq<LogEntry>, did: string, current: KeySet, staged: KeySet, now: int)
    requires entries != []
    ensures AnnouncesChange(tool, current, staged, TypedRotation(tool, entries, did, current, staged, now))
  {
    hide AuthorizedMultikey, SuccessorId, SuccessorBody, SignedProof, KeyDocument;
  }

  /** An active world is rotated exactly for good options and a DID that does not end in white space. */
  lemma RotationGoesThrough(tool: Tool, w: World, did: Did.Did, roles: seq<Role>, files: KeyFiles, generated: KeySet,
                            now: int)
    requires Active(tool, w, did)
    ensures RotateResult(tool, w.dirs, w.text, roles, files, generated, now).Ok?
            <==> GoodOptions(tool, roles, files) && Trim(did.ToString()) == did.ToString()
  {
    hide *;
    var current := ActiveKeys(tool, w, did);
    RotateOutcome(tool, w, did, current, roles, files, generated, now);
    StagingIsExact(tool, roles, files, current, generated);
    RotatedExactly(tool, w, did.ToString(), EntriesOf(tool, w.text), current, roles, files, generated, now);
  }

  lemma RotatedExactly(tool: Tool, w: World, did: string, entries: seq<LogEntry>, current: KeySet, roles: seq<Role>,
                       files: KeyFiles, generated: KeySet, now: int)
    requires entries != [] && tool.didHash(did) in w.dirs && LatestVersion(w.dirs[tool.didHash(did)]).Some?
    ensures Rotated(tool, w, did, entries, current, roles, files, generated, now).Ok?
            <==> PlanOf(roles, files).Ok? && StagedKeys(tool, PlanOf(roles, files).value, current, generated).Ok?
                 && Trim(did) == did
  {
    hide PlanOf, StagedKeys, RotatedWorld, LatestVersion, Trim;
  }

  /**
   After it, the next snapshot holds for each role the key kept, generated or imported, and the new entry
   announces exactly a change of the authorized key.
   */
  lemma RotationKeys(tool: Tool, w: World, did: Did.Did, roles: seq<Role>, files: KeyFiles, generated: KeySet, now: int)
    returns (before: KeySet, after: KeySet)
    requires LawfulTool(tool) && Active(tool, w, did) && ClockOk(now) && |EntriesOf(tool, w.text)| < 9999
    requires RotateResult(tool, w.dirs, w.text, roles, files, generated, now).Ok?
    ensures var (text, dirs) := RotateResult(tool, w.dirs, w.text, roles, files, generated, now).value;
      var n, hash := |EntriesOf(tool, w.text)|, tool.didHash(did.ToString());
      && hash in w.dirs && hash in dirs && |EntriesOf(tool, text)| == n + 1
      && KeysAt(w.dirs[hash], n) == Some(before) && KeysAt(dirs[hash], n + 1) == Some(after)
      && Staged(tool, roles, files, before, generated, after)
      && AnnouncesChange(tool, before, after, EntriesOf(tool, text)[n])
  {
    hide *;
    before := ActiveKeys(tool, w, did);
    var entries := EntriesOf(tool, w.text);
    RotateOutcome(tool, w, did, before, roles, files, generated, now);
    after := RotatedKeys(tool, w, did.ToString(), entries, before, roles, files, generated, now);
    StagingIsExact(tool, roles, files, before, generated);
    var next := RotatedWorld(tool, w, did.ToString(), entries, before, after, now);
    ActiveLogIsSound(tool, w, did);
    NewestSnapshot(tool, w, did.ToString(), entries, before, after, now);
    RotatedWorldIsActive(tool, w, did, before, after, now);
    InDirectory(tool, next, did);
    RotatedText(tool, w, did.ToString(), entries, before, after, now);
    RotationAnnounces(tool, entries, did.ToString(), before, after, now);
  }

  lemma RotatedText(tool: Tool, w: World, did: string, entries: seq<LogEntry>, current: KeySet, staged: KeySet,
                    now: int)
    requires LawfulTool(tool) && FromJsonl(tool.text, w.text) == Ok(entries) && entries != []
    requires tool.didHash(did) in w.dirs && LatestVersion(w.dirs[tool.didHash(did)]).Some?
    ensures var after := EntriesOf(tool, RotatedWorld(tool, w, did, entries, current, staged, now).text);
            |after| == |entries| + 1 && after[|entries|] == TypedRotation(tool, entries, did, current, staged, now)
  {
    hide RotationEntry, UpdatedLog, CollectRawLines, FromJsonl, TypedRotation, LatestVersion, WithNextVersion,
         LawfulTool;
    RotationParses(tool, w.text, entries, did, current, staged, now);
  }

  // --- behind an entry of another format ---

  lemma LastIsNewest(first: LogEntry, entries: seq<LogEntry>)
    requires entries != [] && entries[|entries| - 1].state.Value?
    requires entries[|entries| - 1].state.doc.GetStr("id").Some?
    ensures CurrentDidOf([first] + entries) == CurrentDidOf(entries)
  {
    assert ([first] + entries)[|entries|] == entries[|entries| - 1];
  }

  lemma SameKeysFound(tool: Tool, dirs: map<string, EntryDir>, first: LogEntry, entries: seq<LogEntry>, did: Did.Did)
    requires Accepted(tool.crypto, entries, did)
    ensures CurrentKeys(tool, dirs, [first] + entries) == CurrentKeys(tool, dirs, entries)
  {
    LastDocument(tool.crypto, entries, did);
    LastIsNewest(first, entries);
    hide Accepted, CurrentDidOf;
  }

  lemma LoadedUnverified(tool: Tool, text: string, entries: seq<LogEntry>)
    requires FromJsonl(tool.text, text) == Ok(entries) && entries != [] && entries[0].format != Tdw03
    ensures LoadResult(tool, text, None) == Ok(entries)
  {
    hide FromJsonl;
  }

  /**
   The gap that the first entry's format leaves: behind an entry of another format any log with stored keys
   is rotated although no verifier accepts it.
   */
  lemma RotatedBehindForeignEntry(tool: Tool, w: World, did: Did.Did, first: LogEntry, roles: seq<Role>,
                                  files: KeyFiles, generated: KeySet, now: int, other: Did.Did)
    requires LawfulTool(tool) && Active(tool, w, did) && Trim(did.ToString()) == did.ToString()
    requires first.format == WebVh10 == first.parameters.format && first.Normalise() == first
    requires GoodOptions(tool, roles, files)
    ensures var text := tool.text.print_(first.ToJson()) + "\n" + w.text;
      && EntriesOf(tool, text) == [first] + EntriesOf(tool, w.text)
      && RotateResult(tool, w.dirs, text, roles, files, generated, now).Ok?
      && VerifyResult(tool.crypto, EntriesOf(tool, text), other).Err?
  {
    hide *;
    var entries := EntriesOf(tool, w.text);
    var text := tool.text.print_(first.ToJson()) + "\n" + w.text;
    var current := ActiveKeys(tool, w, did);
    ActiveLogIsSound(tool, w, did);
    ForeignTextParses(tool, w.text, entries, first);
    LoadedUnverified(tool, text, [first] + entries);
    CurrentKeysStored(tool, w.dirs, did, entries, current);
    SameKeysFound(tool, w.dirs, first, entries, did);
    AcceptedLogEnds(tool.crypto, entries, did);
    assert ([first] + entries)[|entries|] == entries[|entries| - 1];
    RotateUnfolds(tool, World(text, w.dirs), did.ToString(), [first] + entries, current, roles, files, generated, now);
    StagingIsExact(tool, roles, files, current, generated);
    RotatedExactly(tool, World(text, w.dirs), did.ToString(), [first] + entries, current, roles, files, generated, now);
    ForeignIsRejected(tool.crypto, first, entries, other);
    EntriesOfParsed(tool, text, [first] + entries);
  }

  lemma ForeignIsRejected(c: Crypto, first: LogEntry, entries: seq<LogEntry>, did: Did.Did)
    requires first.format != Tdw03
    ensures VerifyResult(c, [first] + entries, did).Err?
  {
    VerifierIsExact(c, [first] + entries, did);
    assert ([first] + entries)[0] == first;
  }

  lemma ForeignTextParses(tool: Tool, text: string, entries: seq<LogEntry>, first: LogEntry)
    requires LawfulTool(tool) && FromJsonl(tool.text, text) == Ok(entries)
    requires first.parameters.format == first.format && first.Normalise() == first
    ensures FromJsonl(tool.text, tool.text.print_(first.ToJson()) + "\n" + text) == Ok([first] + entries)
  {
    hide FromJsonl, LogEntry.ToJson, LogEntry.Normalise;
    PrintedEntryParses(tool.text, first);
    PrependedLine(tool.text, text, tool.text.print_(first.ToJson()), first);
  }
}
