/**
 Which logs `rotate` and `deactivate` start from: a local log is verified before anything is appended
 to it, unless its first entry is of another format (swiyu-didtool/src/cmd/didlog.rs).
 */
module Loading {
  import opened Basics
  import opened Crypto
  import opened LogEntry
  import opened Jsonl
  import opened KeyStore
  import opened LogVerifier
  import opened LogSecurity
  import opened Producer
  import opened LogGrowth
  import Did

  /** The DID that a log announces, if it can be read. */
  function AnnouncedDid(entries: seq<LogEntry>): Option<Did.Did> {
    match CurrentDidOf(entries)
    case None => None
    case Some(s) => (match Did.FromStr(s) case Ok(did) => Some(did) case Err(_) => None)
  }

  /** The DID a log is verified against: the one asked for, otherwise the one it announces. */
  function VerifiedAgainst(entries: seq<LogEntry>, target: Option<Did.Did>): Option<Did.Did> {
    if target.Some? then target else AnnouncedDid(entries)
  }

  /**
   A did:tdw log is loaded exactly when it is accepted for the DID asked for, or else the announced one.
   It goes unverified only without a readable DID.
   */
  lemma LoadIsExact(tool: Tool, text: string, target: Option<Did.Did>)
    requires var entries := EntriesOf(tool, text); entries != [] && entries[0].format == Tdw03
    ensures var entries, r := EntriesOf(tool, text), LoadResult(tool, text, target);
      var did := VerifiedAgainst(entries, target);
      && (r.Ok? ==> r == Ok(entries))
      && (r.Ok? <==> did.None? || Accepted(tool.crypto, entries, did.value))
      && (r.Err? ==> did.Some? && r == Err(Verification(VerifyResult(tool.crypto, entries, did.value).error)))
  {
    hide FromJsonl, VerifyResult, Accepted, CurrentDidOf, Did.FromStr;
    var entries := EntriesOf(tool, text);
    var did := VerifiedAgainst(entries, target);
    if did.Some? {
      VerifierIsExact(tool.crypto, entries, did.value);
    }
  }

  lemma AcceptedIsTdw(c: Crypto, entries: seq<LogEntry>, did: Did.Did)
    requires Accepted(c, entries, did)
    ensures entries != [] && entries[0].format == Tdw03
  {
  }

  lemma LoadedIsExact(tool: Tool, text: string, did: Did.Did)
    requires LoadResult(tool, text, None) == Ok(EntriesOf(tool, text)) && EntriesOf(tool, text) != []
    requires AnnouncedDid(EntriesOf(tool, text)) == Some(did)
    ensures Accepted(tool.crypto, EntriesOf(tool, text), did) <==> EntriesOf(tool, text)[0].format == Tdw03
  {
    hide LoadResult, Accepted, AnnouncedDid, EntriesOf;
    if EntriesOf(tool, text)[0].format == Tdw03 {
      LoadIsExact(tool, text, None);
    }
    if Accepted(tool.crypto, EntriesOf(tool, text), did) {
      AcceptedIsTdw(tool.crypto, EntriesOf(tool, text), did);
    }
  }

  lemma FoundKeysHaveDid(tool: Tool, dirs: map<string, EntryDir>, entries: seq<LogEntry>)
    requires CurrentKeys(tool, dirs, entries).Ok?
    ensures AnnouncedDid(entries).Some?
  {
    hide CurrentDidOf, Did.FromStr, FindEntry, LatestVersion, KeysAt;
  }

  lemma RotateLoads(tool: Tool, dirs: map<string, EntryDir>, text: string, roles: seq<Role>, files: KeyFiles,
                    generated: KeySet, now: int)
    requires RotateResult(tool, dirs, text, roles, files, generated, now).Ok?
    ensures var entries := EntriesOf(tool, text);
      && LoadResult(tool, text, None) == Ok(entries) && entries != [] && CurrentKeys(tool, dirs, entries).Ok?
  {
    hide CurrentKeys, RotationEntry, UpdatedLog, CollectRawLines, PlanOf, StagedKeys, LatestVersion, WithNextVersion,
         FromJsonl, LoadedResult;
  }

  lemma DeactivateLoads(tool: Tool, dirs: map<string, EntryDir>, text: string, now: int)
    requires DeactivateResult(tool, dirs, text, now).Ok?
    ensures var entries := EntriesOf(tool, text);
      && LoadResult(tool, text, None) == Ok(entries) && entries != [] && CurrentKeys(tool, dirs, entries).Ok?
  {
    hide CurrentKeys, DeactivationEntry, UpdatedLog, CollectRawLines, FromJsonl, LoadedResult;
  }

  /** A rotation that goes through started from a log accepted for its DID, exactly if that starts as did:tdw. */
  lemma RotateStartsAccepted(tool: Tool, dirs: map<string, EntryDir>, text: string, roles: seq<Role>, files: KeyFiles,
                             generated: KeySet, now: int) returns (did: Did.Did)
    requires RotateResult(tool, dirs, text, roles, files, generated, now).Ok?
    ensures EntriesOf(tool, text) != [] && AnnouncedDid(EntriesOf(tool, text)) == Some(did)
    ensures Accepted(tool.crypto, EntriesOf(tool, text), did) <==> EntriesOf(tool, text)[0].format == Tdw03
  {
    hide *;
    RotateLoads(tool, dirs, text, roles, files, generated, now);
    FoundKeysHaveDid(tool, dirs, EntriesOf(tool, text));
    did := AnnouncedDid(EntriesOf(tool, text)).value;
    LoadedIsExact(tool, text, did);
  }

  /** And so did every deactivation that goes through. */
  lemma DeactivateStartsAccepted(tool: Tool, dirs: map<string, EntryDir>, text: string, now: int)
    returns (did: Did.Did)
    requires DeactivateResult(tool, dirs, text, now).Ok?
    ensures EntriesOf(tool, text) != [] && AnnouncedDid(EntriesOf(tool, text)) == Some(did)
    ensures Accepted(tool.crypto, EntriesOf(tool, text), did) <==> EntriesOf(tool, text)[0].format == Tdw03
  {
    hide *;
    DeactivateLoads(tool, dirs, text, now);
    FoundKeysHaveDid(tool, dirs, EntriesOf(tool, text));
    did := AnnouncedDid(EntriesOf(tool, text)).value;
    LoadedIsExact(tool, text, did);
  }
}
