/**
 One more entry: what `rotate` and `deactivate` append to a log, and when the result is accepted.
 */
module LogGrowth {
  import opened Basics
  import opened Text
  import opened Json
  import opened Crypto
  import opened LogEntry
  import opened Jsonl
  import opened KeyStore
  import opened VersionTime
  import opened LogVerifier
  import opened LogSecurity
  import opened Producer
  import opened Genesis
  import DidDoc
  import Did
  import Proof

  // --- one more entry ---

  lemma ParametersAreNormal(current: string, next: string)
    ensures RotationParameters(current, next).Normalise() == RotationParameters(current, next)
    ensures DeactivationParameters().Normalise() == DeactivationParameters()
  {
  }

  /** The typed entry that a successor line parses to. */
  function TypedSuccessor(tool: Tool, entries: seq<LogEntry>, time: string, p: LogParameters, document: Json,
                          signer: KeySet): LogEntry
    requires entries != []
  {
    var body := SuccessorBody(entries[|entries| - 1].versionId, time, p.ToJson(), document);
    var versionId := SuccessorId(tool, |entries|, body);
    LogEntry(Tdw03, versionId, time, p, Value(document),
             [SignedProof(tool, signer, document, Proof.Authentication, versionId, time)])
  }

  lemma SuccessorParses(tool: Tool, entries: seq<LogEntry>, time: string, p: LogParameters, document: Json,
                        signer: KeySet)
    requires entries != [] && p.format == Tdw03 && p.Normalise() == p
    ensures var e := TypedSuccessor(tool, entries, time, p, document, signer);
      && Successor(tool, entries, time, p.ToJson(), document, signer) == e.ToJson()
      && EntryFromJson(e.ToJson()) == Ok(e) && e.Normalise() == e
      && HashingForm(e, entries[|entries| - 1].versionId)
         == Arr(SuccessorBody(entries[|entries| - 1].versionId, time, p.ToJson(), document))
  {
    var e := TypedSuccessor(tool, entries, time, p, document, signer);
    ParsePrintedEntry(e);
    hide LogParameters.ToJson, SignedProof, SuccessorId, EntryFromJson, LogParameters.Normalise;
    assert Successor(tool, entries, time, p.ToJson(), document, signer).items == e.ToJson().items;
    assert HashingForm(e, entries[|entries| - 1].versionId).items
        == SuccessorBody(entries[|entries| - 1].versionId, time, p.ToJson(), document);
  }

  /**
   A successor for the same DID extends an accepted log to an accepted log exactly when it is signed
   with a key in force.
   */
  lemma SuccessorAccepted(tool: Tool, entries: seq<LogEntry>, did: Did.Did, time: string, p: LogParameters,
                          document: Json, signer: KeySet)
    requires LawfulTool(tool) && Accepted(tool.crypto, entries, did)
    requires p.format == Tdw03 && p.Normalise() == p && document.GetStr("id") == Some(did.ToString())
    ensures Accepted(tool.crypto, entries + [TypedSuccessor(tool, entries, time, p, document, signer)], did)
            <==> AuthorizedMultikey(tool, signer) in EffectiveKeys(entries)
  {
    var c, e := tool.crypto, TypedSuccessor(tool, entries, time, p, document, signer);
    var longer, n := entries + [e], |entries|;
    SuccessorParses(tool, entries, time, p, document, signer);
    SignedBySnapshot(tool, e, signer, Proof.Authentication, e.versionId, time, EffectiveKeys(entries));
    AcceptedAppend(c, entries, e, did);
    NumberIsPosition(n);
    hide LogParameters.ToJson, SignedProof, HashLogEntry, SeqPrefix, HashingForm, SignedByOneOf, EffectiveKeys,
         SuccessorBody, Accepted, EntryFromJson, EntryOk, Decimal;
    assert longer[..n] == entries && longer[n] == e && longer[n - 1] == entries[n - 1];
    SuccessorChecks(c, longer, did, n);
  }

  lemma SuccessorChecks(c: Crypto, entries: seq<LogEntry>, did: Did.Did, i: nat)
    requires 0 < i < |entries| && entries[i].format == Tdw03 && did.scid.Some?
    requires DocumentIdIs(entries[i], did.ToString())
    requires entries[i].versionId == Decimal((i + 1) % U32_LIMIT) + "-" + HashLogEntry(c, HashInput(entries, did, i))
    ensures EntryOk(c, entries, did, i) <==> SignedByOneOf(c, entries[i], EffectiveKeys(entries[..i]))
  {
    hide HashLogEntry, Decimal, HashingForm, SignedByOneOf, EffectiveKeys, DocumentIdIs;
    assert EntryOk(c, entries, did, i) ==> Check(c, entries, did, i, 5);
  }

  /** The updated log text parses to the old entries and the successor. */
  lemma UpdatedTextParses(tool: Tool, text: string, entries: seq<LogEntry>, time: string, p: LogParameters,
                          document: Json, signer: KeySet)
    requires LawfulTool(tool) && FromJsonl(tool.text, text) == Ok(entries) && entries != []
    requires p.format == Tdw03 && p.Normalise() == p
    ensures var line := tool.text.print_(Successor(tool, entries, time, p.ToJson(), document, signer));
            FromJsonl(tool.text, UpdatedLog(CollectRawLines(text), line))
            == Ok(entries + [TypedSuccessor(tool, entries, time, p, document, signer)])
  {
    hide Successor, LogEntry.ToJson, EntryFromJson, FromJsonl, UpdatedLog, CollectRawLines, LogParameters.Normalise,
         Blank, Trim;
    var e := TypedSuccessor(tool, entries, time, p, document, signer);
    SuccessorParses(tool, entries, time, p, document, signer);
    assert e.parameters.format == e.format;
    PrintedEntryParses(tool.text, e);
    AppendPreservesLog(tool.text, text, tool.text.print_(e.ToJson()), e);
  }

  /** The entries of a log text, none if it does not parse. */
  function EntriesOf(tool: Tool, text: string): seq<LogEntry> {
    match FromJsonl(tool.text, text)
    case Ok(entries) => entries
    case Err(_) => []
  }

  // --- rotate ---

  function TypedRotation(tool: Tool, entries: seq<LogEntry>, did: string, current: KeySet, staged: KeySet, now: int)
    : LogEntry
    requires entries != []
  {
    TypedSuccessor(tool, entries, ComputeVersionTime(tool.time, entries[|entries| - 1].versionTime, now),
                   RotationParameters(AuthorizedMultikey(tool, current), AuthorizedMultikey(tool, staged)),
                   KeyDocument(tool, did, staged), current)
  }

  lemma RotationParses(tool: Tool, text: string, entries: seq<LogEntry>, did: string, current: KeySet, staged: KeySet,
                       now: int)
    requires LawfulTool(tool) && FromJsonl(tool.text, text) == Ok(entries) && entries != []
    ensures var line := tool.text.print_(RotationEntry(tool, entries, did, current, staged, now));
            FromJsonl(tool.text, UpdatedLog(CollectRawLines(text), line))
            == Ok(entries + [TypedRotation(tool, entries, did, current, staged, now)])
  {
    var time := ComputeVersionTime(tool.time, entries[|entries| - 1].versionTime, now);
    var p := RotationParameters(AuthorizedMultikey(tool, current), AuthorizedMultikey(tool, staged));
    ParametersAreNormal(AuthorizedMultikey(tool, current), AuthorizedMultikey(tool, staged));
    hide LogParameters.Normalise, KeyDocument, FromJsonl, UpdatedLog, AuthorizedMultikey, Successor;
    UpdatedTextParses(tool, text, entries, time, p, KeyDocument(tool, did, staged), current);
  }

  /** A rotation entry extends an accepted log exactly when its signer's key is in force. */
  lemma RotationAccepted(tool: Tool, entries: seq<LogEntry>, did: Did.Did, current: KeySet, staged: KeySet, now: int)
    requires LawfulTool(tool) && Accepted(tool.crypto, entries, did) && entries != []
    ensures Accepted(tool.crypto, entries + [TypedRotation(tool, entries, did.ToString(), current, staged, now)], did)
            <==> AuthorizedMultikey(tool, current) in EffectiveKeys(entries)
  {
    var time := ComputeVersionTime(tool.time, entries[|entries| - 1].versionTime, now);
    var p := RotationParameters(AuthorizedMultikey(tool, current), AuthorizedMultikey(tool, staged));
    ParametersAreNormal(AuthorizedMultikey(tool, current), AuthorizedMultikey(tool, staged));
    KeyDocumentId(tool, did.ToString(), staged);
    hide LogParameters.Normalise, KeyDocument, AuthorizedMultikey, Accepted, EffectiveKeys, TypedSuccessor;
    SuccessorAccepted(tool, entries, did, time, p, KeyDocument(tool, did.ToString(), staged), current);
  }

  lemma KeyDocumentId(tool: Tool, did: string, keys: KeySet)
    requires LawfulTool(tool)
    ensures KeyDocument(tool, did, keys).GetStr("id") == Some(did)
  {
    DidDoc.ParsePrintedDoc(tool.crypto,
      DidDoc.NewGenesis(tool.crypto, did, tool.p256Public(keys.authentication), tool.p256Public(keys.assertion)));
  }

  /** What a rotation that goes through has found and written. */
  lemma RotateSteps(tool: Tool, dirs: map<string, EntryDir>, text: string, roles: seq<Role>, files: KeyFiles,
                    generated: KeySet, now: int) returns (staged: KeySet)
    requires RotateResult(tool, dirs, text, roles, files, generated, now).Ok?
    ensures var entries := EntriesOf(tool, text);
      && FromJsonl(tool.text, text) == Ok(entries) && entries != [] && CurrentKeys(tool, dirs, entries).Ok?
      && var (did, hash, dir, current) := CurrentKeys(tool, dirs, entries).value;
      && LatestVersion(dir).Some?
      && RotateResult(tool, dirs, text, roles, files, generated, now).value
         == (UpdatedLog(CollectRawLines(text),
                        tool.text.print_(RotationEntry(tool, entries, did, current, staged, now))),
             dirs[hash := WithNextVersion(dir, staged)])
  {
    hide CurrentKeys, RotationEntry, UpdatedLog, CollectRawLines, PlanOf, StagedKeys, LatestVersion, WithNextVersion,
         FromJsonl, LoadedResult;
    var entries := EntriesOf(tool, text);
    var (_, _, _, current) := CurrentKeys(tool, dirs, entries).value;
    staged := StagedKeys(tool, PlanOf(roles, files).value, current, generated).value;
  }

  lemma CurrentKeysAreOfTheDid(tool: Tool, dirs: map<string, EntryDir>, entries: seq<LogEntry>, did: Did.Did)
    requires Accepted(tool.crypto, entries, did) && CurrentKeys(tool, dirs, entries).Ok?
    ensures CurrentKeys(tool, dirs, entries).value.0 == did.ToString()
  {
    hide Accepted, Did.FromStr, FindEntry, LatestVersion, KeysAt;
    CurrentDidIsTheVerifiedDid(tool.crypto, entries, did);
  }

  /**
   Every rotation that goes through on an accepted log adds one entry to it, and the new log is accepted
   exactly when the key of the newest snapshot is in force.
   */
  lemma RotateIsExact(tool: Tool, dirs: map<string, EntryDir>, text: string, did: Did.Did, roles: seq<Role>,
                      files: KeyFiles, generated: KeySet, now: int)
    requires LawfulTool(tool) && Accepted(tool.crypto, EntriesOf(tool, text), did)
    requires RotateResult(tool, dirs, text, roles, files, generated, now).Ok?
    ensures var before, after := EntriesOf(tool, text),
                                 EntriesOf(tool, RotateResult(tool, dirs, text, roles, files, generated, now).value.0);
      && CurrentKeys(tool, dirs, before).Ok?
      && |after| == |before| + 1 && before <= after
      && (VerifyResult(tool.crypto, after, did).Ok? <==>
          AuthorizedMultikey(tool, CurrentKeys(tool, dirs, before).value.3) in EffectiveKeys(before))
  {
    var entries := EntriesOf(tool, text);
    hide RotateResult, CurrentKeys, FromJsonl, RotationEntry, UpdatedLog, CollectRawLines, TypedRotation, Accepted,
         VerifyResult, AuthorizedMultikey, EffectiveKeys, LatestVersion, WithNextVersion;
    var staged := RotateSteps(tool, dirs, text, roles, files, generated, now);
    CurrentKeysAreOfTheDid(tool, dirs, entries, did);
    var (_, _, _, current) := CurrentKeys(tool, dirs, entries).value;
    RotationParses(tool, text, entries, did.ToString(), current, staged, now);
    RotationAccepted(tool, entries, did, current, staged, now);
    VerifierIsExact(tool.crypto, entries + [TypedRotation(tool, entries, did.ToString(), current, staged, now)], did);
    assert entries <= entries + [TypedRotation(tool, entries, did.ToString(), current, staged, now)];
  }

  // --- deactivate ---

  function TypedDeactivation(tool: Tool, entries: seq<LogEntry>, document: Json, current: KeySet, now: int): LogEntry
    requires entries != []
  {
    TypedSuccessor(tool, entries, ComputeVersionTime(tool.time, entries[|entries| - 1].versionTime, now),
                   DeactivationParameters(), document, current)
  }

  lemma DeactivationParses(tool: Tool, text: string, entries: seq<LogEntry>, document: Json, current: KeySet, now: int)
    requires LawfulTool(tool) && FromJsonl(tool.text, text) == Ok(entries) && entries != []
    ensures var line := tool.text.print_(DeactivationEntry(tool, entries, document, current, now));
            FromJsonl(tool.text, UpdatedLog(CollectRawLines(text), line))
            == Ok(entries + [TypedDeactivation(tool, entries, document, current, now)])
  {
    var time := ComputeVersionTime(tool.time, entries[|entries| - 1].versionTime, now);
    ParametersAreNormal("", "");
    hide LogParameters.Normalise, FromJsonl, UpdatedLog, Successor, DeactivationParameters;
    UpdatedTextParses(tool, text, entries, time, DeactivationParameters(), document, current);
  }

  lemma LastDocument(c: Crypto, entries: seq<LogEntry>, did: Did.Did)
    requires Accepted(c, entries, did)
    ensures DocumentIdIs(entries[|entries| - 1], did.ToString())
  {
    assert EntryOk(c, entries, did, |entries| - 1);
    assert Check(c, entries, did, |entries| - 1, 1);
  }

  /** The same for a deactivation entry. */
  lemma DeactivationAccepted(tool: Tool, entries: seq<LogEntry>, did: Did.Did, current: KeySet, now: int)
    requires LawfulTool(tool) && Accepted(tool.crypto, entries, did) && entries != []
    ensures entries[|entries| - 1].state.Value?
    ensures var document := entries[|entries| - 1].state.doc;
            Accepted(tool.crypto, entries + [TypedDeactivation(tool, entries, document, current, now)], did)
            <==> AuthorizedMultikey(tool, current) in EffectiveKeys(entries)
  {
    var time := ComputeVersionTime(tool.time, entries[|entries| - 1].versionTime, now);
    LastDocument(tool.crypto, entries, did);
    ParametersAreNormal("", "");
    hide LogParameters.Normalise, AuthorizedMultikey, Accepted, EffectiveKeys, TypedSuccessor, DeactivationParameters;
    SuccessorAccepted(tool, entries, did, time, DeactivationParameters(), entries[|entries| - 1].state.doc, current);
  }

  lemma DeactivateSteps(tool: Tool, dirs: map<string, EntryDir>, text: string, now: int)
    requires DeactivateResult(tool, dirs, text, now).Ok?
    ensures var entries := EntriesOf(tool, text);
      && FromJsonl(tool.text, text) == Ok(entries) && entries != [] && CurrentKeys(tool, dirs, entries).Ok?
      && entries[|entries| - 1].state.Value?
      && var line := DeactivationEntry(tool, entries, entries[|entries| - 1].state.doc,
                                       CurrentKeys(tool, dirs, entries).value.3, now);
         DeactivateResult(tool, dirs, text, now).value == UpdatedLog(CollectRawLines(text), tool.text.print_(line))
  {
    hide CurrentKeys, DeactivationEntry, UpdatedLog, CollectRawLines, FromJsonl, LoadedResult;
  }

  /** The same for every deactivation that goes through. */
  lemma DeactivateIsExact(tool: Tool, dirs: map<string, EntryDir>, text: string, did: Did.Did, now: int)
    requires LawfulTool(tool) && Accepted(tool.crypto, EntriesOf(tool, text), did)
    requires DeactivateResult(tool, dirs, text, now).Ok?
    ensures var before, after := EntriesOf(tool, text), EntriesOf(tool, DeactivateResult(tool, dirs, text, now).value);
      && CurrentKeys(tool, dirs, before).Ok?
      && |after| == |before| + 1 && before <= after
      && (VerifyResult(tool.crypto, after, did).Ok? <==>
          AuthorizedMultikey(tool, CurrentKeys(tool, dirs, before).value.3) in EffectiveKeys(before))
  {
    var entries := EntriesOf(tool, text);
    hide DeactivateResult, CurrentKeys, FromJsonl, DeactivationEntry, UpdatedLog, CollectRawLines, TypedDeactivation,
         Accepted, VerifyResult, AuthorizedMultikey, EffectiveKeys;
    DeactivateSteps(tool, dirs, text, now);
    var (_, _, _, current) := CurrentKeys(tool, dirs, entries).value;
    DeactivationAccepted(tool, entries, did, current, now);
    var document := entries[|entries| - 1].state.doc;
    DeactivationParses(tool, text, entries, document, current, now);
    VerifierIsExact(tool.crypto, entries + [TypedDeactivation(tool, entries, document, current, now)], did);
    assert entries <= entries + [TypedDeactivation(tool, entries, document, current, now)];
  }

  lemma NoKeysAfterDeactivation(entries: seq<LogEntry>)
    requires entries != [] && entries[|entries| - 1].parameters == DeactivationParameters()
    ensures EffectiveKeys(entries) == []
  {
    KeysAfter(entries, |entries| - 1);
    assert entries[..|entries|] == entries;
  }

  /** Once a deactivation entry is in a log, no extension by any entries, however signed, is accepted. */
  lemma DeactivationIsFinal(c: Crypto, entries: seq<LogEntry>, more: seq<LogEntry>, did: Did.Did)
    requires entries != [] && entries[|entries| - 1].parameters == DeactivationParameters() && more != []
    ensures !Accepted(c, entries + more, did) && VerifyResult(c, entries + more, did).Err?
  {
    hide Accepted, VerifyResult;
    EmptyKeysAreFinal(c, entries, more, did);
    VerifierIsExact(c, entries + more, did);
  }
}
