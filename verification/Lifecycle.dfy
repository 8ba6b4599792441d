/**
 Whole lifecycles: a created log stays accepted through every rotation and an optional final
 deactivation, its times ascend, and the key store stays in step with it.
 */
module Lifecycle {
  import opened Basics
  import opened Text
  import opened Json
  import opened Crypto
  import opened Scid
  import opened LogEntry
  import opened Jsonl
  import opened KeyStore
  import opened VersionTime
  import opened LogVerifier
  import opened LogSecurity
  import opened Producer
  import opened Genesis
  import opened GenesisDocument
  import opened LogGrowth
  import DidDoc
  import Did
  import DidUrl

  // --- invariants of a lifecycle ---

  datatype World = World(text: string, dirs: map<string, EntryDir>)

  // Clock readings leave room for one second per entry up to the end of year 9999.
  const CLOCK_LIMIT := MAX_SECOND - 10000

  predicate ClockOk(now: int) {
    0 <= now <= CLOCK_LIMIT * NANOS
  }

  ghost predicate TimesAscend(tt: TimeText, entries: seq<LogEntry>) {
    && (forall i | 0 <= i < |entries| :: tt.parse(entries[i].versionTime).Some?)
    && (forall i | 0 < i < |entries| ::
          tt.parse(entries[i - 1].versionTime).value < tt.parse(entries[i].versionTime).value)
    && (entries != [] ==>
          tt.parse(entries[|entries| - 1].versionTime).value <= (CLOCK_LIMIT + |entries| - 1) * NANOS)
  }

  ghost predicate SoundLog(tool: Tool, entries: seq<LogEntry>, did: Did.Did) {
    && Accepted(tool.crypto, entries, did) && did.Valid() && Did.Reparsable(did)
    && TimesAscend(tool.time, entries)
    && forall i | 0 <= i < |entries| :: ProofNamesEntry(entries[i])
  }

  /** Snapshot `k` belongs to entry `k`: it holds the only key then in force and the keys of that document. */
  ghost predicate SnapshotOf(tool: Tool, dir: EntryDir, did: string, entries: seq<LogEntry>, k: nat)
    requires 1 <= k <= |entries|
  {
    && KeysAt(dir, k).Some?
    && EffectiveKeys(entries[..k]) == [AuthorizedMultikey(tool, KeysAt(dir, k).value)]
    && entries[k - 1].state == Value(KeyDocument(tool, did, KeysAt(dir, k).value))
  }

  /** The key store has snapshots 1..n for the n entries, and each belongs to its entry. */
  ghost predicate InStep(tool: Tool, dirs: map<string, EntryDir>, did: string, entries: seq<LogEntry>) {
    var hash := tool.didHash(did);
    && hash in dirs && dirs[hash].didText == did && entries != [] && Lockstep(dirs[hash], |entries|)
    && forall k: nat | 1 <= k <= |entries| :: SnapshotOf(tool, dirs[hash], did, entries, k)
  }

  ghost predicate Active(tool: Tool, w: World, did: Did.Did) {
    var log := FromJsonl(tool.text, w.text);
    && log.Ok? && SoundLog(tool, log.value, did) && InStep(tool, w.dirs, did.ToString(), log.value)
    && log.value[|log.value| - 1].parameters.deactivated.None?
  }

  /** All but the last entry are in step; the last one announces no keys and repeats the document. */
  ghost predicate Deactivated(tool: Tool, w: World, did: Did.Did) {
    var log := FromJsonl(tool.text, w.text);
    && log.Ok? && SoundLog(tool, log.value, did) && |log.value| >= 2
    && var n := |log.value| - 1;
    && InStep(tool, w.dirs, did.ToString(), log.value[..n])
    && log.value[n].parameters == DeactivationParameters() && log.value[n].state == log.value[n - 1].state
  }

  /** What the key store gives for a DID: the keys of the newest snapshot it sees. */
  ghost predicate Stored(tool: Tool, dirs: map<string, EntryDir>, did: string, current: KeySet) {
    var hash := tool.didHash(did);
    && hash in dirs && dirs[hash].didText == did
    && LatestVersion(dirs[hash]).Some? && KeysAt(dirs[hash], LatestVersion(dirs[hash]).value) == Some(current)
  }

  function SnapshotsOf(tool: Tool, w: World, did: Did.Did): EntryDir
    requires tool.didHash(did.ToString()) in w.dirs
  {
    w.dirs[tool.didHash(did.ToString())]
  }

  /** Snapshots up to `n` and the directories of all other DIDs are as before. */
  ghost predicate KeepsStore(tool: Tool, before: map<string, EntryDir>, after: map<string, EntryDir>, did: string,
                             n: nat) {
    var hash := tool.didHash(did);
    && hash in before && hash in after && before - {hash} == after - {hash}
    && forall v: nat | v <= n :: KeysAt(after[hash], v) == KeysAt(before[hash], v)
  }

  /** Loading an accepted in-place log succeeds and finds its DID. */
  lemma LoadsItself(tool: Tool, text: string, entries: seq<LogEntry>, did: Did.Did)
    requires FromJsonl(tool.text, text) == Ok(entries) && SoundLog(tool, entries, did)
    ensures LoadResult(tool, text, None) == Ok(entries)
    ensures LoadResult(tool, text, Some(did)) == Ok(entries)
    ensures CurrentDidOf(entries) == Some(did.ToString()) && Did.FromStr(did.ToString()) == Ok(did)
  {
    hide FromJsonl, VerifyResult, Did.FromStr, CurrentDidOf;
    VerifierIsExact(tool.crypto, entries, did);
    CurrentDidIsTheVerifiedDid(tool.crypto, entries, did);
    Did.ParseOfPrint(did);
  }

  /** The lookup finds the stored keys exactly when the DID does not end in white space. */
  lemma CurrentKeysStored(tool: Tool, dirs: map<string, EntryDir>, did: Did.Did, entries: seq<LogEntry>,
                          current: KeySet)
    requires SoundLog(tool, entries, did) && Stored(tool, dirs, did.ToString(), current)
    ensures var didStr := did.ToString();
      var hash := tool.didHash(didStr);
      CurrentKeys(tool, dirs, entries) ==
        if Trim(didStr) == didStr then Ok((didStr, hash, dirs[hash], current))
        else Err(StoreFailed(Mismatch(hash)))
  {
    hide Did.FromStr, CurrentDidOf, SnapshotName, LatestVersion;
    CurrentDidIsTheVerifiedDid(tool.crypto, entries, did);
    Did.ParseOfPrint(did);
  }

  lemma StoredInStep(tool: Tool, dirs: map<string, EntryDir>, did: string, entries: seq<LogEntry>)
    requires InStep(tool, dirs, did, entries)
    ensures KeysAt(dirs[tool.didHash(did)], |entries|).Some?
    ensures Stored(tool, dirs, did, KeysAt(dirs[tool.didHash(did)], |entries|).value)
    ensures EffectiveKeys(entries) == [AuthorizedMultikey(tool, KeysAt(dirs[tool.didHash(did)], |entries|).value)]
  {
    hide Lockstep, KeysAt, LatestVersion, EffectiveKeys, AuthorizedMultikey, KeyDocument;
    LatestInLockstep(dirs[tool.didHash(did)], |entries|);
    assert SnapshotOf(tool, dirs[tool.didHash(did)], did, entries, |entries|);
    assert entries[..|entries|] == entries;
  }

  lemma ActiveLogIsSound(tool: Tool, w: World, did: Did.Did)
    requires Active(tool, w, did)
    ensures var entries := EntriesOf(tool, w.text);
      && FromJsonl(tool.text, w.text) == Ok(entries) && entries != []
      && SoundLog(tool, entries, did) && Accepted(tool.crypto, entries, did)
      && InStep(tool, w.dirs, did.ToString(), entries)
      && entries[|entries| - 1].parameters.deactivated.None?
  {
    hide FromJsonl, Accepted, Lockstep, TimesAscend, Did.Reparsable, Did.Did.Valid, Did.Did.ToString, SnapshotOf;
  }

  lemma DeactivatedLogIsSound(tool: Tool, w: World, did: Did.Did)
    requires Deactivated(tool, w, did)
    ensures var entries := EntriesOf(tool, w.text);
      && FromJsonl(tool.text, w.text) == Ok(entries) && |entries| >= 2
      && SoundLog(tool, entries, did) && Accepted(tool.crypto, entries, did)
      && InStep(tool, w.dirs, did.ToString(), entries[..|entries| - 1])
      && entries[|entries| - 1].parameters == DeactivationParameters()
  {
    hide FromJsonl, Accepted, Lockstep, TimesAscend, Did.Reparsable, Did.Did.Valid, Did.Did.ToString, SnapshotOf;
  }

  lemma LaterTime(tool: Tool, entries: seq<LogEntry>, e: LogEntry, now: int)
    requires LawfulTool(tool) && TimesAscend(tool.time, entries) && entries != [] && |entries| < 10000 && ClockOk(now)
    requires e.versionTime == ComputeVersionTime(tool.time, entries[|entries| - 1].versionTime, now)
    ensures TimesAscend(tool.time, entries + [e])
  {
    var tt, prev := tool.time, entries[|entries| - 1].versionTime;
    var candidate := Candidate(tt, prev, now);
    assert -5 * NANOS <= candidate <= (CLOCK_LIMIT + |entries|) * NANOS;
    StrictlyLater(tt, prev, now);
    assert tt.parse(e.versionTime) == Some((candidate / NANOS) * NANOS);
    assert (candidate / NANOS) * NANOS <= candidate;
  }

  lemma SoundLogAppend(tool: Tool, entries: seq<LogEntry>, e: LogEntry, did: Did.Did, now: int)
    requires LawfulTool(tool) && SoundLog(tool, entries, did) && entries != [] && |entries| < 10000 && ClockOk(now)
    requires e.versionTime == ComputeVersionTime(tool.time, entries[|entries| - 1].versionTime, now)
    requires Accepted(tool.crypto, entries + [e], did) && ProofNamesEntry(e)
    ensures SoundLog(tool, entries + [e], did)
  {
    hide Accepted, ProofNamesEntry, TimesAscend, Did.Reparsable, Did.Did.Valid;
    LaterTime(tool, entries, e, now);
  }

  // --- create ---

  /** At most one colon, the port separator, in the host of the URL. */
  predicate SingleColonHost(url: string) {
    match DidUrl.HostAndPath(url)
    case Err(_) => true
    case Ok((host, _)) => (match SplitOnce(host, ':') case Some((_, port)) => ':' !in port case None => true)
  }

  /** The SCID about to be derived does not happen to occur in the entry it is derived from. */
  predicate FreshScid(tool: Tool, url: string, keys: KeySet, now: int) {
    match DidUrl.UrlToDidComponents(url)
    case Err(_) => true
    case Ok((domain, path)) =>
      ScidIsFresh(tool, PreliminaryEntry(tool, Tdw03, DidText(Remainder(domain, path)), keys, NowText(tool, now)))
  }

  lemma EncodedHostColonFree(url: string)
    requires SingleColonHost(url) && DidUrl.UrlToDidComponents(url).Ok?
    ensures ':' !in DidUrl.UrlToDidComponents(url).value.0
  {
  }

  lemma NowIsReadable(tool: Tool, now: int)
    requires LawfulTool(tool) && ClockOk(now)
    ensures Plain(NowText(tool, now))
    ensures tool.time.parse(NowText(tool, now)) == Some((Backdated(now) / NANOS) * NANOS)
  {
    assert MIN_SECOND <= Backdated(now) / NANOS <= MAX_SECOND;
  }

  lemma CreatedLineParses(tool: Tool, e: LogEntry)
    requires LawfulTool(tool) && e.parameters.format == e.format && e.Normalise() == e
    ensures FromJsonl(tool.text, LogLine(tool, e.ToJson())) == Ok([e])
  {
    hide LogEntry.ToJson, LogEntry.Normalise, Blank, Trim, ParseEntryText;
    PrintedEntryParses(tool.text, e);
    var line := tool.text.print_(e.ToJson());
    assert Aligned(tool.text, [line], [e]);
    assert [line][1..] == [] && Terminated([line]) == line + "\n" + Terminated([]);
    assert line + "\n" + "" == line + "\n";
    TerminatedParses(tool.text, [line], [e], 1);
  }

  /** A successful create leaves a log that is accepted for its DID and in step with the key store. */
  lemma CreateIsSound(tool: Tool, dirs: map<string, EntryDir>, url: string, keys: KeySet, now: int)
    requires LawfulTool(tool) && ClockOk(now)
    requires !Contains(url, PLACEHOLDER) && SingleColonHost(url) && FreshScid(tool, url, keys, now)
    requires CreateResult(tool, dirs, url, Tdw03, keys, now).Ok?
    ensures var (did, text, dirs') := CreateResult(tool, dirs, url, Tdw03, keys, now).value;
      && Active(tool, World(text, dirs'), did)
      && |EntriesOf(tool, text)| == 1
      && dirs' - {tool.didHash(did.ToString())} == dirs - {tool.didHash(did.ToString())}
  {
    hide DidUrl.UrlToDidComponents, CreatedEntry, FromJsonl, LogLine, EntryFromJson, Accepted, ScidIsFresh, Contains,
         PreliminaryEntry, LogEntry.ToJson, AuthorizedMultikey, Lockstep, KeysAt, Did.IsValidDomain, Did.IsValidPath,
         ReplaceStrings, KeyDocument, PlaceholderDocument, ProofNamesEntry, SoundLog, InStep, NewEntry;
    var (domain, path) := DidUrl.UrlToDidComponents(url).value;
    var nowText := NowText(tool, now);
    var created := CreatedEntry(tool, Tdw03, domain, path, keys, nowText).value;
    NowIsReadable(tool, now);
    ComponentsAreFree(url);
    var e := CreatedEntryIsAccepted(tool, domain, path, keys, nowText, created);
    CreatedLine(tool, domain, path, keys, nowText, created, e);
    EncodedHostColonFree(url);
    CreatedDocument(tool, domain, path, keys, created.did.scid.value);
    assert tool.time.parse(e.versionTime) == Some((Backdated(now) / NANOS) * NANOS);
    FirstLogIsSound(tool, e, created.did, now);
    FirstWorldInStep(tool, dirs, e, created.did.ToString(), keys);
    FirstDirectory(dirs, tool.didHash(created.did.ToString()), NewEntry(created.did.ToString(), keys));
  }

  lemma FirstDirectory(dirs: map<string, EntryDir>, hash: string, dir: EntryDir)
    requires hash !in dirs
    ensures dirs[hash := dir] - {hash} == dirs - {hash}
  {
  }

  lemma FirstLogIsSound(tool: Tool, e: LogEntry, did: Did.Did, now: int)
    requires Accepted(tool.crypto, [e], did) && did.Valid() && Did.Reparsable(did) && ProofNamesEntry(e) && ClockOk(now)
    requires tool.time.parse(e.versionTime) == Some((Backdated(now) / NANOS) * NANOS)
    ensures SoundLog(tool, [e], did)
  {
    hide Accepted, ProofNamesEntry, Did.Reparsable, Did.Did.Valid;
  }

  lemma FirstWorldInStep(tool: Tool, dirs: map<string, EntryDir>, e: LogEntry, did: string, keys: KeySet)
    requires e.parameters.updateKeys == Some([AuthorizedMultikey(tool, keys)])
    requires e.state == Value(KeyDocument(tool, did, keys))
    ensures InStep(tool, dirs[tool.didHash(did) := NewEntry(did, keys)], did, [e])
  {
    hide AuthorizedMultikey, KeyDocument, Lockstep, KeysAt;
    FirstSnapshot(did, keys);
    assert [e][..1] == [e] && [e][..0] == [];
    KeysAfter([e], 0);
    assert SnapshotOf(tool, NewEntry(did, keys), did, [e], 1);
  }

  lemma CreatedDocument(tool: Tool, domain: string, path: Option<string>, keys: KeySet, scid: string)
    requires LawfulTool(tool) && !Contains(Remainder(domain, path), PLACEHOLDER)
    ensures ReplaceStrings(PlaceholderDocument(tool, Remainder(domain, path), keys), PLACEHOLDER, scid)
            == KeyDocument(tool, Did.Did(Did.Tdw, Some(scid), domain, path).ToString(), keys)
  {
    hide ReplaceStrings, DidDoc.DocToJson, Contains, DidText;
    SubstitutedDocument(tool.crypto, Remainder(domain, path), scid, tool.p256Public(keys.authentication),
                        tool.p256Public(keys.assertion));
    PlaceholderDidText(domain, path, scid);
  }

  lemma CreatedLine(tool: Tool, domain: string, path: Option<string>, keys: KeySet, nowText: string, created: Created,
                    e: LogEntry)
    requires LawfulTool(tool) && CreatedEntry(tool, Tdw03, domain, path, keys, nowText) == Ok(created) && Plain(nowText)
    requires EntryFromJson(created.entry) == Ok(e) && created.entry == e.ToJson() && e.parameters.format == e.format
    ensures FromJsonl(tool.text, LogLine(tool, created.entry)) == Ok([e])
    ensures created.did.Valid() && created.did.scid.Some? && created.did.scid.value != ""
               && ':' !in created.did.scid.value
    ensures created.did == Did.Did(Did.Tdw, created.did.scid, domain, path)
  {
    hide EntryFromJson, FromJsonl, LogLine, LogEntry.ToJson;
    ParsePrintedEntry(e);
    CreatedLineParses(tool, e);
    CreatedShape(tool, domain, path, keys, nowText, created);
    hide PreliminaryEntry, CreatedEntry, TypedGenesis, ReplaceStrings;
    ScidText(tool, PreliminaryEntry(tool, Tdw03, DidText(Remainder(domain, path)), keys, nowText));
    assert !IsBase58(':');
  }

  // --- rotate ---

  /** What a rotate makes of a loaded log and the current keys. */
  function Rotated(tool: Tool, w: World, did: string, entries: seq<LogEntry>, current: KeySet, roles: seq<Role>,
                   files: KeyFiles, generated: KeySet, now: int): Result<(string, map<string, EntryDir>), ChangeError>
    requires entries != [] && tool.didHash(did) in w.dirs && LatestVersion(w.dirs[tool.didHash(did)]).Some?
  {
    var plan :- PlanOf(roles, files);
    if Trim(did) != did then Err(StoreFailed(Mismatch(tool.didHash(did))))
    else
      var staged :- StagedKeys(tool, plan, current, generated);
      var next := RotatedWorld(tool, w, did, entries, current, staged, now);
      Ok((next.text, next.dirs))
  }

  /** The world a rotation with the given keys leads to. */
  function RotatedWorld(tool: Tool, w: World, did: string, entries: seq<LogEntry>, current: KeySet, staged: KeySet,
                        now: int): World
    requires entries != [] && tool.didHash(did) in w.dirs && LatestVersion(w.dirs[tool.didHash(did)]).Some?
  {
    var line := tool.text.print_(RotationEntry(tool, entries, did, current, staged, now));
    var hash := tool.didHash(did);
    World(UpdatedLog(CollectRawLines(w.text), line), w.dirs[hash := WithNextVersion(w.dirs[hash], staged)])
  }

  lemma RotateUnfolds(tool: Tool, w: World, did: string, entries: seq<LogEntry>, current: KeySet, roles: seq<Role>,
                      files: KeyFiles, generated: KeySet, now: int)
    requires LoadResult(tool, w.text, None) == Ok(entries) && entries != [] && entries[|entries| - 1].format == Tdw03
    requires tool.didHash(did) in w.dirs && LatestVersion(w.dirs[tool.didHash(did)]).Some?
    requires CurrentKeys(tool, w.dirs, entries) ==
             if Trim(did) == did then Ok((did, tool.didHash(did), w.dirs[tool.didHash(did)], current))
             else Err(StoreFailed(Mismatch(tool.didHash(did))))
    ensures RotateResult(tool, w.dirs, w.text, roles, files, generated, now)
            == Rotated(tool, w, did, entries, current, roles, files, generated, now)
  {
    hide LoadResult, CurrentKeys, RotationEntry, UpdatedLog, CollectRawLines, PlanOf, StagedKeys, LatestVersion, Trim,
         WithNextVersion;
  }

  lemma AcceptedLogEnds(c: Crypto, entries: seq<LogEntry>, did: Did.Did)
    requires Accepted(c, entries, did)
    ensures entries != [] && entries[|entries| - 1].format == Tdw03
  {
  }

  /**
   On a sound log with stored keys a rotate fails exactly for a bad plan, a key file that cannot be read,
   or a DID with white space at its end, which the key store does not find again.
   */
  lemma RotateOutcome(tool: Tool, w: World, did: Did.Did, current: KeySet, roles: seq<Role>, files: KeyFiles,
                      generated: KeySet, now: int)
    requires FromJsonl(tool.text, w.text) == Ok(EntriesOf(tool, w.text)) && SoundLog(tool, EntriesOf(tool, w.text), did)
    requires Stored(tool, w.dirs, did.ToString(), current)
    ensures EntriesOf(tool, w.text) != []
    ensures RotateResult(tool, w.dirs, w.text, roles, files, generated, now)
            == Rotated(tool, w, did.ToString(), EntriesOf(tool, w.text), current, roles, files, generated, now)
  {
    var entries := EntriesOf(tool, w.text);
    LoadsItself(tool, w.text, entries, did);
    AcceptedLogEnds(tool.crypto, entries, did);
    CurrentKeysStored(tool, w.dirs, did, entries, current);
    hide FromJsonl, LoadResult, CurrentKeys, RotateResult, Rotated, KeysAt, LatestVersion, Trim, TimesAscend,
         Did.Reparsable, Did.IsValidDomain, Did.IsValidPath, EntriesOf;
    RotateUnfolds(tool, w, did.ToString(), entries, current, roles, files, generated, now);
  }

  lemma RotatedKeys(tool: Tool, w: World, did: string, entries: seq<LogEntry>, current: KeySet, roles: seq<Role>,
                    files: KeyFiles, generated: KeySet, now: int) returns (staged: KeySet)
    requires entries != [] && tool.didHash(did) in w.dirs && LatestVersion(w.dirs[tool.didHash(did)]).Some?
    requires Rotated(tool, w, did, entries, current, roles, files, generated, now).Ok?
    ensures PlanOf(roles, files).Ok? && StagedKeys(tool, PlanOf(roles, files).value, current, generated) == Ok(staged)
    ensures var (text, dirs) := Rotated(tool, w, did, entries, current, roles, files, generated, now).value;
            World(text, dirs) == RotatedWorld(tool, w, did, entries, current, staged, now)
  {
    hide PlanOf, StagedKeys, RotationEntry, UpdatedLog, CollectRawLines, WithNextVersion, LatestVersion, Trim;
    staged := StagedKeys(tool, PlanOf(roles, files).value, current, generated).value;
  }

  lemma RotationFields(tool: Tool, entries: seq<LogEntry>, did: string, current: KeySet, staged: KeySet, now: int)
    requires entries != [] && EffectiveKeys(entries) == [AuthorizedMultikey(tool, current)]
    ensures var e := TypedRotation(tool, entries, did, current, staged, now);
      && e.versionTime == ComputeVersionTime(tool.time, entries[|entries| - 1].versionTime, now)
      && e.state == Value(KeyDocument(tool, did, staged)) && ProofNamesEntry(e)
      && e.parameters.deactivated.None?
      && EffectiveKeys(entries + [e]) == [AuthorizedMultikey(tool, staged)]
  {
    hide KeyDocument, AuthorizedMultikey, SuccessorId, ProofNamesEntry, SignedProof;
    var e := TypedRotation(tool, entries, did, current, staged, now);
    SignedProofNamesEntry(tool, e, current, KeyDocument(tool, did, staged));
    CarryKeysAppend([], entries, e);
  }

  lemma InStepAfterRotate(tool: Tool, dirs: map<string, EntryDir>, did: string, entries: seq<LogEntry>, staged: KeySet,
                          e: LogEntry)
    requires InStep(tool, dirs, did, entries) && 1 <= |entries| < 9999
    requires EffectiveKeys(entries + [e]) == [AuthorizedMultikey(tool, staged)]
    requires e.state == Value(KeyDocument(tool, did, staged))
    requires LatestVersion(dirs[tool.didHash(did)]).Some?
    ensures var next := dirs[tool.didHash(did) := WithNextVersion(dirs[tool.didHash(did)], staged)];
      InStep(tool, next, did, entries + [e]) && KeepsStore(tool, dirs, next, did, |entries|)
  {
    hide EffectiveKeys, AuthorizedMultikey, Lockstep, LatestVersion, KeysAt, KeyDocument;
    var hash, n := tool.didHash(did), |entries|;
    var dir, longer := dirs[hash], entries + [e];
    AddVersionInLockstep(dir, n, staged);
    SameDidText(dir, staged);
    forall k: nat | 1 <= k <= n + 1 ensures SnapshotOf(tool, WithNextVersion(dir, staged), did, longer, k) {
      if k <= n {
        assert SnapshotOf(tool, dir, did, entries, k);
        assert longer[..k] == entries[..k];
      } else {
        assert longer[..k] == longer;
      }
    }
  }

  lemma SameDidText(dir: EntryDir, keys: KeySet)
    requires LatestVersion(dir).Some?
    ensures WithNextVersion(dir, keys).didText == dir.didText
  {
  }

  lemma RotatedWorldIsActive(tool: Tool, w: World, did: Did.Did, current: KeySet, staged: KeySet, now: int)
    requires LawfulTool(tool) && Active(tool, w, did) && ClockOk(now) && 1 <= |EntriesOf(tool, w.text)| < 9999
    requires tool.didHash(did.ToString()) in w.dirs
    requires KeysAt(SnapshotsOf(tool, w, did), |EntriesOf(tool, w.text)|) == Some(current)
    requires LatestVersion(SnapshotsOf(tool, w, did)).Some?
    ensures var next := RotatedWorld(tool, w, did.ToString(), EntriesOf(tool, w.text), current, staged, now);
      var before, after := EntriesOf(tool, w.text), EntriesOf(tool, next.text);
      && Active(tool, next, did)
      && |after| == |before| + 1 && before <= after
      && KeepsStore(tool, w.dirs, next.dirs, did.ToString(), |before|)
  {
    var entries := EntriesOf(tool, w.text);
    hide FromJsonl, UpdatedLog, CollectRawLines, Accepted, EffectiveKeys, RotationEntry, TimesAscend, WithNextVersion,
         LatestVersion, KeysAt, Lockstep, Did.Reparsable, Did.Did.Valid, Did.Did.ToString, AuthorizedMultikey,
         LawfulTool, InStep, SoundLog, KeyDocument, ProofNamesEntry, TypedRotation, KeepsStore;
    ActiveLogIsSound(tool, w, did);
    StoredInStep(tool, w.dirs, did.ToString(), entries);
    var e := TypedRotation(tool, entries, did.ToString(), current, staged, now);
    RotationParses(tool, w.text, entries, did.ToString(), current, staged, now);
    RotationAccepted(tool, entries, did, current, staged, now);
    RotationFields(tool, entries, did.ToString(), current, staged, now);
    InStepAfterRotate(tool, w.dirs, did.ToString(), entries, staged, e);
    SoundLogAppend(tool, entries, e, did, now);
    assert entries <= entries + [e];
  }

  /** Rotation keeps an active world active, adds one entry and one snapshot and overwrites none. */
  lemma RotateIsSound(tool: Tool, w: World, did: Did.Did, roles: seq<Role>, files: KeyFiles, generated: KeySet,
                      now: int)
    requires LawfulTool(tool) && Active(tool, w, did) && ClockOk(now)
    requires |EntriesOf(tool, w.text)| < 9999
    requires RotateResult(tool, w.dirs, w.text, roles, files, generated, now).Ok?
    ensures var (text, dirs) := RotateResult(tool, w.dirs, w.text, roles, files, generated, now).value;
      var before, after := EntriesOf(tool, w.text), EntriesOf(tool, text);
      && Active(tool, World(text, dirs), did)
      && |after| == |before| + 1 && before <= after
      && KeepsStore(tool, w.dirs, dirs, did.ToString(), |before|)
  {
    hide *;
    var current := ActiveKeys(tool, w, did);
    RotateOutcome(tool, w, did, current, roles, files, generated, now);
    var entries := EntriesOf(tool, w.text);
    var staged := RotatedKeys(tool, w, did.ToString(), entries, current, roles, files, generated, now);
    RotatedWorldIsActive(tool, w, did, current, staged, now);
  }

  /** The newest snapshot of an active world, with what the outcome lemmas ask of it. */
  lemma ActiveKeys(tool: Tool, w: World, did: Did.Did) returns (current: KeySet)
    requires Active(tool, w, did)
    ensures FromJsonl(tool.text, w.text) == Ok(EntriesOf(tool, w.text)) && SoundLog(tool, EntriesOf(tool, w.text), did)
    ensures EntriesOf(tool, w.text) != [] && |EntriesOf(tool, w.text)| >= 1
    ensures Stored(tool, w.dirs, did.ToString(), current) && tool.didHash(did.ToString()) in w.dirs
    ensures LatestVersion(SnapshotsOf(tool, w, did)).Some?
    ensures SnapshotsOf(tool, w, did) == w.dirs[tool.didHash(did.ToString())]
    ensures KeysAt(SnapshotsOf(tool, w, did), |EntriesOf(tool, w.text)|) == Some(current)
    ensures EffectiveKeys(EntriesOf(tool, w.text)) == [AuthorizedMultikey(tool, current)]
  {
    hide FromJsonl, InStep, SoundLog, KeysAt, LatestVersion, EffectiveKeys, AuthorizedMultikey, Did.Did.ToString,
         EntriesOf;
    ActiveLogIsSound(tool, w, did);
    StoredInStep(tool, w.dirs, did.ToString(), EntriesOf(tool, w.text));
    current := KeysAt(SnapshotsOf(tool, w, did), |EntriesOf(tool, w.text)|).value;
  }

  const NO_FILES := KeyFiles(None, None, None)

  lemma AllStaged(tool: Tool, current: KeySet, generated: KeySet)
    ensures PlanOf([All], NO_FILES).Ok?
    ensures StagedKeys(tool, PlanOf([All], NO_FILES).value, current, generated) == Ok(generated)
  {
  }

  /** Generating all keys anew goes through on every sound log whose DID does not end in white space. */
  lemma RotateAllGoesThrough(tool: Tool, w: World, did: Did.Did, current: KeySet, generated: KeySet, now: int)
    requires FromJsonl(tool.text, w.text) == Ok(EntriesOf(tool, w.text)) && SoundLog(tool, EntriesOf(tool, w.text), did)
    requires Stored(tool, w.dirs, did.ToString(), current) && Trim(did.ToString()) == did.ToString()
    ensures EntriesOf(tool, w.text) != [] && tool.didHash(did.ToString()) in w.dirs
    ensures LatestVersion(w.dirs[tool.didHash(did.ToString())]).Some?
    ensures var next := RotatedWorld(tool, w, did.ToString(), EntriesOf(tool, w.text), current, generated, now);
            RotateResult(tool, w.dirs, w.text, [All], NO_FILES, generated, now) == Ok((next.text, next.dirs))
  {
    hide RotateResult, RotatedWorld, EntriesOf, SoundLog, Trim, LatestVersion, KeysAt, StagedKeys, PlanOf, FromJsonl;
    RotateOutcome(tool, w, did, current, [All], NO_FILES, generated, now);
    AllStaged(tool, current, generated);
  }

  lemma NewestSnapshot(tool: Tool, w: World, did: string, entries: seq<LogEntry>, current: KeySet, staged: KeySet,
                       now: int)
    requires InStep(tool, w.dirs, did, entries) && LatestVersion(w.dirs[tool.didHash(did)]).Some?
    ensures var next := RotatedWorld(tool, w, did, entries, current, staged, now);
            KeysAt(next.dirs[tool.didHash(did)], |entries| + 1) == Some(staged)
  {
    hide Lockstep, KeysAt, LatestVersion, WithNextVersion, UpdatedLog, CollectRawLines, RotationEntry, SnapshotOf;
    AddVersionInLockstep(w.dirs[tool.didHash(did)], |entries|, staged);
  }

  /** From an active world it leads to an active world with one entry more, and its keys are the newest. */
  lemma RotateAllIsSound(tool: Tool, w: World, did: Did.Did, generated: KeySet, now: int)
    requires LawfulTool(tool) && Active(tool, w, did) && ClockOk(now) && |EntriesOf(tool, w.text)| < 9999
    requires Trim(did.ToString()) == did.ToString()
    ensures var r := RotateResult(tool, w.dirs, w.text, [All], NO_FILES, generated, now);
      && r.Ok?
      && var (text, dirs) := r.value;
      && Active(tool, World(text, dirs), did)
      && |EntriesOf(tool, text)| == |EntriesOf(tool, w.text)| + 1
      && tool.didHash(did.ToString()) in dirs
      && KeysAt(dirs[tool.didHash(did.ToString())], |EntriesOf(tool, text)|) == Some(generated)
  {
    hide *;
    var current := ActiveKeys(tool, w, did);
    RotateAllGoesThrough(tool, w, did, current, generated, now);
    RotatedWorldIsActive(tool, w, did, current, generated, now);
    ActiveLogIsSound(tool, w, did);
    NewestSnapshot(tool, w, did.ToString(), EntriesOf(tool, w.text), current, generated, now);
    InDirectory(tool, RotatedWorld(tool, w, did.ToString(), EntriesOf(tool, w.text), current, generated, now), did);
  }

  lemma InDirectory(tool: Tool, w: World, did: Did.Did)
    requires Active(tool, w, did)
    ensures tool.didHash(did.ToString()) in w.dirs
  {
    var _ := ActiveKeys(tool, w, did);
  }

  // --- deactivate ---

  function EndedText(tool: Tool, w: World, entries: seq<LogEntry>, current: KeySet, now: int): string
    requires entries != [] && entries[|entries| - 1].state.Value?
  {
    UpdatedLog(CollectRawLines(w.text),
               tool.text.print_(DeactivationEntry(tool, entries, entries[|entries| - 1].state.doc, current, now)))
  }

  /** What a deactivate makes of a loaded log and the current keys. */
  function Ended(tool: Tool, w: World, did: string, entries: seq<LogEntry>, current: KeySet, now: int)
    : Result<string, ChangeError>
    requires entries != [] && entries[|entries| - 1].state.Value?
  {
    if entries[|entries| - 1].parameters.deactivated == Some(true) then Err(AlreadyDeactivated)
    else if Trim(did) != did then Err(StoreFailed(Mismatch(tool.didHash(did))))
    else Ok(EndedText(tool, w, entries, current, now))
  }

  lemma DeactivateUnfolds(tool: Tool, w: World, did: string, entries: seq<LogEntry>, current: KeySet, now: int)
    requires LoadResult(tool, w.text, None) == Ok(entries) && entries != [] && entries[|entries| - 1].format == Tdw03
    requires entries[|entries| - 1].state.Value? && tool.didHash(did) in w.dirs
    requires CurrentKeys(tool, w.dirs, entries) ==
             if Trim(did) == did then Ok((did, tool.didHash(did), w.dirs[tool.didHash(did)], current))
             else Err(StoreFailed(Mismatch(tool.didHash(did))))
    ensures DeactivateResult(tool, w.dirs, w.text, now) == Ended(tool, w, did, entries, current, now)
  {
    hide LoadResult, CurrentKeys, DeactivationEntry, UpdatedLog, CollectRawLines, Trim;
  }

  /**
   On a sound log with stored keys a deactivate fails exactly for an entry that says deactivated, or for
   a DID with white space at its end.
   */
  lemma DeactivateOutcome(tool: Tool, w: World, did: Did.Did, current: KeySet, now: int)
    requires FromJsonl(tool.text, w.text) == Ok(EntriesOf(tool, w.text)) && SoundLog(tool, EntriesOf(tool, w.text), did)
    requires Stored(tool, w.dirs, did.ToString(), current)
    ensures var entries := EntriesOf(tool, w.text);
      && entries != [] && entries[|entries| - 1].state.Value?
      && DeactivateResult(tool, w.dirs, w.text, now) == Ended(tool, w, did.ToString(), entries, current, now)
  {
    var entries := EntriesOf(tool, w.text);
    LoadsItself(tool, w.text, entries, did);
    AcceptedLogEnds(tool.crypto, entries, did);
    LastDocument(tool.crypto, entries, did);
    CurrentKeysStored(tool, w.dirs, did, entries, current);
    hide FromJsonl, LoadResult, CurrentKeys, DeactivateResult, Ended, KeysAt, LatestVersion, Trim, TimesAscend,
         Did.Reparsable, Did.IsValidDomain, Did.IsValidPath, EntriesOf;
    DeactivateUnfolds(tool, w, did.ToString(), entries, current, now);
  }

  lemma DeactivationFields(tool: Tool, entries: seq<LogEntry>, document: Json, current: KeySet, now: int)
    requires entries != []
    ensures var e := TypedDeactivation(tool, entries, document, current, now);
      && e.versionTime == ComputeVersionTime(tool.time, entries[|entries| - 1].versionTime, now)
      && e.state == Value(document) && e.parameters == DeactivationParameters() && ProofNamesEntry(e)
  {
    hide SuccessorId, ProofNamesEntry, SignedProof, DeactivationParameters;
    SignedProofNamesEntry(tool, TypedDeactivation(tool, entries, document, current, now), current, document);
  }

  lemma DeactivatedWorld(tool: Tool, w: World, did: Did.Did, entries: seq<LogEntry>, current: KeySet, now: int)
    requires LawfulTool(tool) && Active(tool, w, did) && ClockOk(now) && entries == EntriesOf(tool, w.text)
    requires 1 <= |entries| < 10000 && entries[|entries| - 1].state.Value?
    requires EffectiveKeys(entries) == [AuthorizedMultikey(tool, current)]
    ensures var text := EndedText(tool, w, entries, current, now);
      var after := EntriesOf(tool, text);
      Deactivated(tool, World(text, w.dirs), did) && |after| == |entries| + 1 && entries <= after
  {
    hide FromJsonl, UpdatedLog, CollectRawLines, Accepted, EffectiveKeys, DeactivationEntry, TimesAscend,
         Did.Reparsable, Did.Did.Valid, Did.Did.ToString, AuthorizedMultikey, LawfulTool, InStep, SoundLog,
         ProofNamesEntry, TypedDeactivation, DeactivationParameters;
    ActiveLogIsSound(tool, w, did);
    var document := entries[|entries| - 1].state.doc;
    var e := TypedDeactivation(tool, entries, document, current, now);
    DeactivationParses(tool, w.text, entries, document, current, now);
    DeactivationAccepted(tool, entries, did, current, now);
    DeactivationFields(tool, entries, document, current, now);
    SoundLogAppend(tool, entries, e, did, now);
    assert (entries + [e])[..|entries|] == entries && entries <= entries + [e];
  }

  /** Deactivation ends an active world: one entry more, the store untouched. */
  lemma DeactivateIsSound(tool: Tool, w: World, did: Did.Did, now: int)
    requires LawfulTool(tool) && Active(tool, w, did) && ClockOk(now)
    requires |EntriesOf(tool, w.text)| < 10000
    requires DeactivateResult(tool, w.dirs, w.text, now).Ok?
    ensures var text := DeactivateResult(tool, w.dirs, w.text, now).value;
      var before, after := EntriesOf(tool, w.text), EntriesOf(tool, text);
      Deactivated(tool, World(text, w.dirs), did) && |after| == |before| + 1 && before <= after
  {
    hide *;
    var current := ActiveKeys(tool, w, did);
    DeactivateOutcome(tool, w, did, current, now);
    EndedIsText(tool, w, did.ToString(), EntriesOf(tool, w.text), current, now);
    DeactivatedWorld(tool, w, did, EntriesOf(tool, w.text), current, now);
  }

  lemma EndedIsText(tool: Tool, w: World, did: string, entries: seq<LogEntry>, current: KeySet, now: int)
    requires entries != [] && entries[|entries| - 1].state.Value?
    ensures var r := Ended(tool, w, did, entries, current, now);
            r.Ok? ==> r.value == EndedText(tool, w, entries, current, now)
  {
    hide EndedText, Trim;
  }

  // --- runs ---

  datatype Command =
    | Rotate(roles: seq<Role>, files: KeyFiles, generated: KeySet, now: int)
    | Deactivate(now: int)

  /** A failing command changes nothing. */
  function Apply(tool: Tool, w: World, cmd: Command): World {
    match cmd
    case Rotate(roles, files, generated, now) =>
      (match RotateResult(tool, w.dirs, w.text, roles, files, generated, now)
       case Ok((text, dirs)) => World(text, dirs)
       case Err(_) => w)
    case Deactivate(now) =>
      (match DeactivateResult(tool, w.dirs, w.text, now)
       case Ok(text) => World(text, w.dirs)
       case Err(_) => w)
  }

  function Run(tool: Tool, w: World, cmds: seq<Command>): World
    decreases |cmds|
  {
    if cmds == [] then w else Run(tool, Apply(tool, w, cmds[0]), cmds[1..])
  }

  /**
   Every rotation, whatever its outcome, keeps an active world active, only ever adds entries, and leaves
   the older snapshots and all other directories alone.
   */
  lemma {:induction false} RotationsStayActive(tool: Tool, w: World, did: Did.Did, cmds: seq<Command>)
    requires LawfulTool(tool) && Active(tool, w, did)
    requires forall i | 0 <= i < |cmds| :: cmds[i].Rotate? && ClockOk(cmds[i].now)
    requires |EntriesOf(tool, w.text)| + |cmds| <= 9999
    ensures var end := Run(tool, w, cmds);
      && Active(tool, end, did)
      && EntriesOf(tool, w.text) <= EntriesOf(tool, end.text)
      && |EntriesOf(tool, end.text)| <= |EntriesOf(tool, w.text)| + |cmds|
      && KeepsStore(tool, w.dirs, end.dirs, did.ToString(), |EntriesOf(tool, w.text)|)
    decreases |cmds|
  {
    hide Active, RotateResult, DeactivateResult, EntriesOf, KeepsStore, LawfulTool;
    var n := |EntriesOf(tool, w.text)|;
    KeepsItself(tool, w, did, n);
    if cmds == [] {
    } else {
      var Rotate(roles, files, generated, now) := cmds[0];
      var next := Apply(tool, w, cmds[0]);
      assert ClockOk(cmds[0].now);
      if RotateResult(tool, w.dirs, w.text, roles, files, generated, now).Ok? {
        RotateIsSound(tool, w, did, roles, files, generated, now);
      }
      RotationsStayActive(tool, next, did, cmds[1..]);
      KeepsTransitively(tool, w.dirs, next.dirs, Run(tool, w, cmds).dirs, did.ToString(), n,
                        |EntriesOf(tool, next.text)|);
    }
  }

  lemma KeepsItself(tool: Tool, w: World, did: Did.Did, n: nat)
    requires Active(tool, w, did)
    ensures KeepsStore(tool, w.dirs, w.dirs, did.ToString(), n)
  {
    hide FromJsonl, SoundLog, Lockstep, SnapshotOf, KeysAt, Did.Did.ToString;
  }

  lemma KeepsTransitively(tool: Tool, a: map<string, EntryDir>, b: map<string, EntryDir>, c: map<string, EntryDir>,
                          did: string, m: nat, n: nat)
    requires KeepsStore(tool, a, b, did, m) && KeepsStore(tool, b, c, did, n) && m <= n
    ensures KeepsStore(tool, a, c, did, m)
  {
    hide KeysAt;
  }

  predicate RotatesAll(cmd: Command) {
    cmd.Rotate? && cmd.roles == [All] && cmd.files == NO_FILES && ClockOk(cmd.now)
  }

  /** The snapshot under the number of the newest entry. */
  function NewestKeys(tool: Tool, w: World, did: Did.Did): Option<KeySet>
    requires tool.didHash(did.ToString()) in w.dirs
  {
    KeysAt(w.dirs[tool.didHash(did.ToString())], |EntriesOf(tool, w.text)|)
  }

  /** One entry more for each rotation; the keys generated last are the newest snapshot. */
  ghost predicate WentThrough(tool: Tool, w: World, did: Did.Did, cmds: seq<Command>, end: World) {
    && |EntriesOf(tool, end.text)| == |EntriesOf(tool, w.text)| + |cmds|
    && tool.didHash(did.ToString()) in end.dirs
    && (cmds != [] && cmds[|cmds| - 1].Rotate? ==>
        NewestKeys(tool, end, did) == Some(cmds[|cmds| - 1].generated))
  }

  lemma FirstWentThrough(tool: Tool, w: World, did: Did.Did, cmds: seq<Command>, next: World, end: World)
    requires cmds != [] && RotatesAll(cmds[0]) && WentThrough(tool, w, did, cmds[..1], next)
    requires WentThrough(tool, next, did, cmds[1..], end) && (cmds[1..] == [] ==> end == next)
    ensures WentThrough(tool, w, did, cmds, end)
  {
    hide EntriesOf, NewestKeys, Did.Did.ToString;
    assert |cmds| == 1 ==> cmds[..1] == cmds;
  }

  /** An active world whose DID does not end in white space. */
  ghost predicate Rotatable(tool: Tool, w: World, did: Did.Did) {
    LawfulTool(tool) && Active(tool, w, did) && Trim(did.ToString()) == did.ToString()
  }

  lemma RotationApplied(tool: Tool, w: World, did: Did.Did, cmd: Command)
    requires Rotatable(tool, w, did) && RotatesAll(cmd) && |EntriesOf(tool, w.text)| < 9999
    ensures var next := Apply(tool, w, cmd);
      && Rotatable(tool, next, did) && WentThrough(tool, w, did, [cmd], next)
      && |EntriesOf(tool, next.text)| == |EntriesOf(tool, w.text)| + 1
  {
    hide Active, RotateResult, EntriesOf, LawfulTool, Trim, KeysAt, Did.Did.ToString;
    RotateAllIsSound(tool, w, did, cmd.generated, cmd.now);
  }

  /** Rotations that generate all keys all go through, and add exactly one entry each, up to 9999. */
  lemma {:induction false} RotationsGoThrough(tool: Tool, w: World, did: Did.Did, cmds: seq<Command>)
    requires Rotatable(tool, w, did) && |EntriesOf(tool, w.text)| + |cmds| <= 9999
    requires forall cmd | cmd in cmds :: RotatesAll(cmd)
    ensures Rotatable(tool, Run(tool, w, cmds), did) && WentThrough(tool, w, did, cmds, Run(tool, w, cmds))
    decreases |cmds|
  {
    hide *;
    RunUnfolds(tool, w, cmds);
    if cmds == [] {
      NothingWentThrough(tool, w, did);
    } else {
      var next := Apply(tool, w, cmds[0]);
      RotationApplied(tool, w, did, cmds[0]);
      RotationsGoThrough(tool, next, did, cmds[1..]);
      RunUnfolds(tool, next, []);
      assert cmds[..1] == [cmds[0]];
      FirstWentThrough(tool, w, did, cmds, next, Run(tool, w, cmds));
    }
  }

  lemma NothingWentThrough(tool: Tool, w: World, did: Did.Did)
    requires Rotatable(tool, w, did)
    ensures WentThrough(tool, w, did, [], w)
  {
    hide Active, EntriesOf, NewestKeys, LawfulTool, Trim, Did.Did.ToString;
    InDirectory(tool, w, did);
  }

  lemma RunUnfolds(tool: Tool, w: World, cmds: seq<Command>)
    ensures Run(tool, w, cmds) == if cmds == [] then w else Run(tool, Apply(tool, w, cmds[0]), cmds[1..])
  {
  }

  lemma {:induction false} RunAppend(tool: Tool, w: World, cmds: seq<Command>, cmd: Command)
    ensures Run(tool, w, cmds + [cmd]) == Apply(tool, Run(tool, w, cmds), cmd)
    decreases |cmds|
  {
    hide Apply;
    if cmds == [] {
      assert [] + [cmd] == [cmd] && [cmd][1..] == [];
    } else {
      assert (cmds + [cmd])[0] == cmds[0] && (cmds + [cmd])[1..] == cmds[1..] + [cmd];
      RunAppend(tool, Apply(tool, w, cmds[0]), cmds[1..], cmd);
    }
  }

  /** What holds at the end of every lifecycle. */
  ghost predicate EndsWell(tool: Tool, w: World, did: Did.Did) {
    var entries := EntriesOf(tool, w.text);
    && LoadResult(tool, w.text, Some(did)) == Ok(entries)
    && VerifyResult(tool.crypto, entries, did).Ok?
    && TimesAscend(tool.time, entries)
    && (Active(tool, w, did) || Deactivated(tool, w, did))
  }

  lemma SoundWorldsEndWell(tool: Tool, w: World, did: Did.Did)
    requires Active(tool, w, did) || Deactivated(tool, w, did)
    ensures EndsWell(tool, w, did)
  {
    hide FromJsonl, LoadResult, VerifyResult, Accepted, InStep, TimesAscend, Lockstep, Did.Did.Valid, Did.Reparsable,
         DeactivationParameters;
    var entries := EntriesOf(tool, w.text);
    SoundWorldLog(tool, w, did);
    LoadsItself(tool, w.text, entries, did);
    VerifierIsExact(tool.crypto, entries, did);
  }

  lemma SoundWorldLog(tool: Tool, w: World, did: Did.Did)
    requires Active(tool, w, did) || Deactivated(tool, w, did)
    ensures var entries := EntriesOf(tool, w.text);
            FromJsonl(tool.text, w.text) == Ok(entries) && SoundLog(tool, entries, did)
  {
    hide FromJsonl, SoundLog, InStep, Did.Did.ToString;
  }

  function Ending(end: Option<int>): seq<Command> {
    if end.Some? then [Deactivate(end.value)] else []
  }

  lemma ActiveWorldsEndWell(tool: Tool, w: World, did: Did.Did, rotations: seq<Command>, end: Option<int>)
    requires LawfulTool(tool) && Active(tool, w, did) && |EntriesOf(tool, w.text)| == 1
    requires forall i | 0 <= i < |rotations| :: rotations[i].Rotate? && ClockOk(rotations[i].now)
    requires |rotations| < 9999 && (end.Some? ==> ClockOk(end.value))
    ensures var last := Run(tool, w, rotations + Ending(end));
            EndsWell(tool, last, did) && KeepsStore(tool, w.dirs, last.dirs, did.ToString(), 1)
  {
    hide Active, Deactivated, EndsWell, DeactivateResult, RotateResult, EntriesOf, Run, LawfulTool, ClockOk, KeepsStore;
    RotationsStayActive(tool, w, did, rotations);
    var last := Run(tool, w, rotations);
    match end
    case None =>
      assert rotations + Ending(end) == rotations;
      SoundWorldsEndWell(tool, last, did);
    case Some(time) =>
      RunAppend(tool, w, rotations, Deactivate(time));
      if DeactivateResult(tool, last.dirs, last.text, time).Ok? {
        DeactivateIsSound(tool, last, did, time);
      }
      SoundWorldsEndWell(tool, Apply(tool, last, Deactivate(time)), did);
  }

  /**
   Create, then rotations, then at most one deactivation: the log text that results is accepted for the
   created DID when it is parsed again, its times ascend strictly, the key store is in step, and the
   directories of all other DIDs are as they were.
   */
  lemma LifecycleIsSound(tool: Tool, dirs: map<string, EntryDir>, url: string, keys: KeySet, now: int,
                         rotations: seq<Command>, end: Option<int>)
    requires LawfulTool(tool) && ClockOk(now)
    requires !Contains(url, PLACEHOLDER) && SingleColonHost(url) && FreshScid(tool, url, keys, now)
    requires CreateResult(tool, dirs, url, Tdw03, keys, now).Ok?
    requires forall i | 0 <= i < |rotations| :: rotations[i].Rotate? && ClockOk(rotations[i].now)
    requires |rotations| < 9999 && (end.Some? ==> ClockOk(end.value))
    ensures var (did, text, dirs') := CreateResult(tool, dirs, url, Tdw03, keys, now).value;
      var last := Run(tool, World(text, dirs'), rotations + Ending(end));
      && EndsWell(tool, last, did)
      && last.dirs - {tool.didHash(did.ToString())} == dirs - {tool.didHash(did.ToString())}
  {
    var (did, text, dirs') := CreateResult(tool, dirs, url, Tdw03, keys, now).value;
    hide *;
    CreateIsSound(tool, dirs, url, keys, now);
    ActiveWorldsEndWell(tool, World(text, dirs'), did, rotations, end);
    KeepsOthers(tool, dirs', Run(tool, World(text, dirs'), rotations + Ending(end)).dirs, did.ToString(), 1);
  }

  lemma KeepsOthers(tool: Tool, before: map<string, EntryDir>, after: map<string, EntryDir>, did: string, n: nat)
    requires KeepsStore(tool, before, after, did, n)
    ensures before - {tool.didHash(did)} == after - {tool.didHash(did)}
  {
  }

  // --- rotations the verifier rejects ---

  lemma DeactivatedKeys(tool: Tool, w: World, did: Did.Did) returns (current: KeySet)
    requires Deactivated(tool, w, did)
    ensures FromJsonl(tool.text, w.text) == Ok(EntriesOf(tool, w.text)) && SoundLog(tool, EntriesOf(tool, w.text), did)
    ensures Stored(tool, w.dirs, did.ToString(), current) && tool.didHash(did.ToString()) in w.dirs
    ensures LatestVersion(SnapshotsOf(tool, w, did)).Some?
    ensures SnapshotsOf(tool, w, did) == w.dirs[tool.didHash(did.ToString())]
  {
    hide FromJsonl, InStep, SoundLog, KeysAt, LatestVersion, EffectiveKeys, AuthorizedMultikey, Did.Did.ToString,
         EntriesOf, DeactivationParameters;
    var entries := EntriesOf(tool, w.text);
    DeactivatedLogIsSound(tool, w, did);
    StoredInStep(tool, w.dirs, did.ToString(), entries[..|entries| - 1]);
    current := KeysAt(SnapshotsOf(tool, w, did), |entries| - 1).value;
  }

  lemma SecondDeactivateRejected(tool: Tool, w: World, did: Did.Did, now: int)
    requires Deactivated(tool, w, did)
    ensures DeactivateResult(tool, w.dirs, w.text, now) == Err(AlreadyDeactivated)
  {
    hide *;
    var current := DeactivatedKeys(tool, w, did);
    DeactivateOutcome(tool, w, did, current, now);
    DeactivatedLogIsSound(tool, w, did);
    EndedTwice(tool, w, did.ToString(), EntriesOf(tool, w.text), current, now);
  }

  lemma EndedTwice(tool: Tool, w: World, did: string, entries: seq<LogEntry>, current: KeySet, now: int)
    requires entries != [] && entries[|entries| - 1].state.Value?
    requires entries[|entries| - 1].parameters == DeactivationParameters()
    ensures Ended(tool, w, did, entries, current, now) == Err(AlreadyDeactivated)
  {
    hide EndedText, Trim;
  }

  /**
   `rotate` does not look for a deactivation: on a deactivated log it goes through just as on an active
   one, and the text it writes parses, to one entry more, but is no longer accepted.
   */
  lemma RotateAfterDeactivateBreaksTheLog(tool: Tool, w: World, did: Did.Did, roles: seq<Role>, files: KeyFiles,
                                          generated: KeySet, now: int) returns (current: KeySet)
    requires LawfulTool(tool) && Deactivated(tool, w, did)
    ensures tool.didHash(did.ToString()) in w.dirs && LatestVersion(SnapshotsOf(tool, w, did)).Some?
    ensures EntriesOf(tool, w.text) != [] && SnapshotsOf(tool, w, did) == w.dirs[tool.didHash(did.ToString())]
    ensures var r := RotateResult(tool, w.dirs, w.text, roles, files, generated, now);
      && r == Rotated(tool, w, did.ToString(), EntriesOf(tool, w.text), current, roles, files, generated, now)
      && (r.Ok? ==> |EntriesOf(tool, r.value.0)| == |EntriesOf(tool, w.text)| + 1
                    && VerifyResult(tool.crypto, EntriesOf(tool, r.value.0), did).Err?)
  {
    hide *;
    current := DeactivatedKeys(tool, w, did);
    RotateOutcome(tool, w, did, current, roles, files, generated, now);
    if RotateResult(tool, w.dirs, w.text, roles, files, generated, now).Ok? {
      DeactivatedLogIsSound(tool, w, did);
      NoKeysAfterDeactivation(EntriesOf(tool, w.text));
      RotateIsExact(tool, w.dirs, w.text, did, roles, files, generated, now);
    }
  }

  /** For instance, generating all keys anew goes through whenever the DID has no white space at its end. */
  lemma DeactivatedLogCanBeRotated(tool: Tool, w: World, did: Did.Did, generated: KeySet, now: int)
    requires Deactivated(tool, w, did) && Trim(did.ToString()) == did.ToString()
    ensures RotateResult(tool, w.dirs, w.text, [All], NO_FILES, generated, now).Ok?
  {
    hide *;
    var current := DeactivatedKeys(tool, w, did);
    RotateAllGoesThrough(tool, w, did, current, generated, now);
  }

  /** At 9999 snapshots a rotation is still sound for the log, but the store goes on seeing the old keys. */
  lemma RotatedAtLimit(tool: Tool, w: World, did: Did.Did, current: KeySet, staged: KeySet, now: int)
    requires LawfulTool(tool) && Active(tool, w, did) && ClockOk(now) && |EntriesOf(tool, w.text)| == 9999
    requires tool.didHash(did.ToString()) in w.dirs && LatestVersion(SnapshotsOf(tool, w, did)).Some?
    requires KeysAt(SnapshotsOf(tool, w, did), 9999) == Some(current)
    ensures var next := RotatedWorld(tool, w, did.ToString(), EntriesOf(tool, w.text), current, staged, now);
      var after := EntriesOf(tool, next.text);
      && FromJsonl(tool.text, next.text) == Ok(after) && SoundLog(tool, after, did)
      && EffectiveKeys(after) == [AuthorizedMultikey(tool, staged)]
      && Stored(tool, next.dirs, did.ToString(), current)
  {
    var entries := EntriesOf(tool, w.text);
    hide FromJsonl, UpdatedLog, CollectRawLines, Accepted, EffectiveKeys, RotationEntry, TimesAscend, WithNextVersion,
         LatestVersion, KeysAt, Lockstep, Did.Reparsable, Did.Did.Valid, Did.Did.ToString, AuthorizedMultikey,
         LawfulTool, SoundLog, KeyDocument, ProofNamesEntry, TypedRotation, SnapshotOf;
    ActiveLogIsSound(tool, w, did);
    StoredInStep(tool, w.dirs, did.ToString(), entries);
    RotationParses(tool, w.text, entries, did.ToString(), current, staged, now);
    RotationAccepted(tool, entries, did, current, staged, now);
    RotationFields(tool, entries, did.ToString(), current, staged, now);
    SoundLogAppend(tool, entries, TypedRotation(tool, entries, did.ToString(), current, staged, now), did, now);
    OverwrittenPastLimit(SnapshotsOf(tool, w, did), staged, staged);
    AddVersionInLockstep(SnapshotsOf(tool, w, did), 9999, staged);
    SameDidText(SnapshotsOf(tool, w, did), staged);
  }

  /**
   Past 9999 snapshots: the first rotation there is accepted, the next one that goes through is signed
   with the old key, and is accepted exactly if the first one did not change the authorized key.
   */
  lemma RotationPastLimit(tool: Tool, w: World, did: Did.Did, roles: seq<Role>, files: KeyFiles, generated: KeySet,
                          now: int, roles2: seq<Role>, files2: KeyFiles, generated2: KeySet, now2: int)
    returns (current: KeySet, staged: KeySet)
    requires LawfulTool(tool) && Active(tool, w, did) && ClockOk(now) && |EntriesOf(tool, w.text)| == 9999
    requires var first := RotateResult(tool, w.dirs, w.text, roles, files, generated, now);
      first.Ok? && RotateResult(tool, first.value.1, first.value.0, roles2, files2, generated2, now2).Ok?
    ensures Stored(tool, w.dirs, did.ToString(), current)
    ensures tool.didHash(did.ToString()) in w.dirs && LatestVersion(SnapshotsOf(tool, w, did)).Some?
    ensures SnapshotsOf(tool, w, did) == w.dirs[tool.didHash(did.ToString())]
    ensures PlanOf(roles, files).Ok? && StagedKeys(tool, PlanOf(roles, files).value, current, generated) == Ok(staged)
    ensures var (text, dirs) := RotateResult(tool, w.dirs, w.text, roles, files, generated, now).value;
      var (text2, _) := RotateResult(tool, dirs, text, roles2, files2, generated2, now2).value;
      && World(text, dirs) == RotatedWorld(tool, w, did.ToString(), EntriesOf(tool, w.text), current, staged, now)
      && VerifyResult(tool.crypto, EntriesOf(tool, text), did).Ok?
      && (VerifyResult(tool.crypto, EntriesOf(tool, text2), did).Ok? <==>
          AuthorizedMultikey(tool, current) == AuthorizedMultikey(tool, staged))
  {
    hide *;
    current := ActiveKeys(tool, w, did);
    RotateOutcome(tool, w, did, current, roles, files, generated, now);
    staged := RotatedKeys(tool, w, did.ToString(), EntriesOf(tool, w.text), current, roles, files, generated, now);
    RotatedAtLimit(tool, w, did, current, staged, now);
    var next := RotatedWorld(tool, w, did.ToString(), EntriesOf(tool, w.text), current, staged, now);
    var after := EntriesOf(tool, next.text);
    SoundIsAccepted(tool, after, did);
    RotateIsExact(tool, next.dirs, next.text, did, roles2, files2, generated2, now2);
    CurrentKeysStored(tool, next.dirs, did, after, current);
  }

  /**
   With all keys generated anew both rotations go through, and the second is accepted exactly if the first
   generated the authorized key that snapshot 9999 holds.
   */
  lemma RotateAllPastLimit(tool: Tool, w: World, did: Did.Did, current: KeySet, generated: KeySet, now: int,
                           generated2: KeySet, now2: int)
    requires LawfulTool(tool) && Active(tool, w, did) && ClockOk(now) && |EntriesOf(tool, w.text)| == 9999
    requires Trim(did.ToString()) == did.ToString() && tool.didHash(did.ToString()) in w.dirs
    requires KeysAt(w.dirs[tool.didHash(did.ToString())], 9999) == Some(current)
    ensures var first := RotateResult(tool, w.dirs, w.text, [All], NO_FILES, generated, now);
      && first.Ok?
      && VerifyResult(tool.crypto, EntriesOf(tool, first.value.0), did).Ok?
      && var second := RotateResult(tool, first.value.1, first.value.0, [All], NO_FILES, generated2, now2);
      && second.Ok?
      && (VerifyResult(tool.crypto, EntriesOf(tool, second.value.0), did).Ok? <==>
          AuthorizedMultikey(tool, current) == AuthorizedMultikey(tool, generated))
  {
    hide *;
    var newest := ActiveKeys(tool, w, did);
    assert newest == current;
    RotateAllGoesThrough(tool, w, did, current, generated, now);
    RotatedAtLimit(tool, w, did, current, generated, now);
    var next := RotatedWorld(tool, w, did.ToString(), EntriesOf(tool, w.text), current, generated, now);
    RotateAllGoesThrough(tool, next, did, current, generated2, now2);
    var used, staged := RotationPastLimit(tool, w, did, [All], NO_FILES, generated, now,
                                          [All], NO_FILES, generated2, now2);
    SameStored(tool, w.dirs, did.ToString(), used, current);
    AllStaged(tool, current, generated);
  }

  lemma SameStored(tool: Tool, dirs: map<string, EntryDir>, did: string, a: KeySet, b: KeySet)
    requires Stored(tool, dirs, did, a) && Stored(tool, dirs, did, b)
    ensures a == b
  {
  }

  lemma SoundIsAccepted(tool: Tool, entries: seq<LogEntry>, did: Did.Did)
    requires SoundLog(tool, entries, did)
    ensures Accepted(tool.crypto, entries, did) && VerifyResult(tool.crypto, entries, did).Ok?
  {
    VerifierIsExact(tool.crypto, entries, did);
  }
}
