/**
 The chain verifier of did:tdw 0.3 logs (swiyu-core/src/didlog/verify.rs): the loop that carries the
 signing keys and the previous versionId forward, and what it accepts, stated without the loop.
 */
module LogVerifier {
  import opened Basics
  import opened Text
  import opened Json
  import opened Crypto
  import opened Scid
  import opened LogEntry
  import Did

  datatype EntryFault = NoDocumentId | PreliminaryNotJson

  datatype ProofFault =
    | NotAnObject
    | NoVerificationMethod
    | NotDidKey
    | BadMultikey(cause: MultibaseError)
    | InvalidKey
    | NoProofValue
    | BadProofValue(cause: MultibaseError)
    | BadProofLength(got: nat)

  datatype VerifyError =
    | Empty
    | DidWithoutScid(did: string)
    | UnsupportedFormat(entry: nat)
    | PatchState(entry: nat)
    | ScidMismatch(derivedScid: string, claimedScid: string)
    | DidIdentifierMismatch(entry: nat, expected: string, actual: string)
    | VersionIdSequenceMismatch(entry: nat, expectedSeq: nat, versionId: string)
    | EntryHashMismatch(entry: nat, claimed: string, derived: string)
    | MissingGenesisUpdateKeys
    | MissingProof(entry: nat)
    | MalformedProof(entry: nat, proofFault: ProofFault)
    | ProofKeyNotAuthorized(entry: nat, verificationMethod: string, multikey: string)
    | SignatureInvalid(entry: nat)
    | MalformedEntry(entry: nat, entryFault: EntryFault)

  // --- the checks of one entry, as the code performs them ---

  /** The sequence number of entry `i`, in 32-bit arithmetic. */
  function SeqNumber(i: nat): nat {
    (i % U32_LIMIT + 1) % U32_LIMIT
  }

  function SeqPrefix(i: nat): string {
    Decimal(SeqNumber(i)) + "-"
  }

  /** The four-element form that is hashed, with `slot` in place of the versionId. */
  function HashingForm(e: LogEntry, slot: string): Json
    requires e.format == Tdw03
  {
    Arr(e.ToJson().items[..4][0 := Str(slot)])
  }

  /** `did:key:<multikey>#<multikey>`. */
  function ParseDidKeyVm(vm: string): Option<string> {
    match StripPrefix(vm, "did:key:")
    case None => None
    case Some(rest) =>
      match SplitOnce(rest, '#')
      case None => None
      case Some((mk1, mk2)) => if mk1 == mk2 then Some(mk1) else None
  }

  function VerifyProof(c: Crypto, i: nat, e: LogEntry, document: Json, authKeys: seq<string>): Result<(), VerifyError> {
    if e.proofs == [] then Err(MissingProof(i))
    else if !e.proofs[0].Obj? then Err(MalformedProof(i, NotAnObject))
    else
      var proof := e.proofs[0];
      match proof.GetStr("verificationMethod")
      case None => Err(MalformedProof(i, NoVerificationMethod))
      case Some(vm) =>
        match ParseDidKeyVm(vm)
        case None => Err(MalformedProof(i, NotDidKey))
        case Some(multikey) =>
          if multikey !in authKeys then Err(ProofKeyNotAuthorized(i, vm, multikey))
          else
            match DecodeMultikey(c, multikey)
            case Err(cause) => Err(MalformedProof(i, BadMultikey(cause)))
            case Ok(key) =>
              if !c.edValid(key) then Err(MalformedProof(i, InvalidKey))
              else VerifySignature(c, i, proof, key, document)
  }

  function VerifySignature(c: Crypto, i: nat, proof: Json, key: Bytes, document: Json): Result<(), VerifyError>
    requires proof.Obj?
  {
    var message := EddsaJcsHash(c, document, Obj(proof.members - {"proofValue"}));
    match proof.GetStr("proofValue")
    case None => Err(MalformedProof(i, NoProofValue))
    case Some(text) =>
      match DecodeMultibase(c, text)
      case Err(cause) => Err(MalformedProof(i, BadProofValue(cause)))
      case Ok(signature) =>
        if |signature| != 64 then Err(MalformedProof(i, BadProofLength(|signature|)))
        else if !c.edVerify(key, message, signature) then Err(SignatureInvalid(i))
        else Ok(())
  }

  function VerifyEntry(c: Crypto, i: nat, e: LogEntry, claimedScid: string, expectedDid: string,
                       prevVersionId: Option<string>, authKeys: seq<string>): Result<(), VerifyError>
    requires e.format == Tdw03
  {
    match e.state
    case Patch(_) => Err(PatchState(i))
    case Value(document) =>
      match document.GetStr("id")
      case None => Err(MalformedEntry(i, NoDocumentId))
      case Some(actualDid) =>
        if actualDid != expectedDid then Err(DidIdentifierMismatch(i, expectedDid, actualDid))
        else
          match StripPrefix(e.versionId, SeqPrefix(i))
          case None => Err(VersionIdSequenceMismatch(i, SeqNumber(i), e.versionId))
          case Some(actualHash) =>
            var hashing := HashingForm(e, if prevVersionId.Some? then prevVersionId.value else claimedScid);
            var derivedHash := HashLogEntry(c, hashing);
            if derivedHash != actualHash then Err(EntryHashMismatch(i, actualHash, derivedHash))
            else
              var _ :- (if i == 0 then VerifyScid(c, hashing, claimedScid) else Ok(()));
              VerifyProof(c, i, e, document, authKeys)
  }

  /** Replacing an empty SCID puts a placeholder before the text, which then is not JSON. */
  function VerifyScid(c: Crypto, hashing: Json, claimedScid: string): Result<(), VerifyError> {
    if claimedScid == "" then Err(MalformedEntry(0, PreliminaryNotJson))
    else
      var derived := HashLogEntry(c, ReplaceStrings(hashing, claimedScid, PLACEHOLDER));
      if derived != claimedScid then Err(ScidMismatch(derived, claimedScid)) else Ok(())
  }

  // --- the log ---

  /** The update keys in force after `entries`, carried forward from `keys`. */
  function CarryKeys(keys: seq<string>, entries: seq<LogEntry>): seq<string>
    decreases |entries|
  {
    if entries == [] then keys
    else
      var announced := entries[0].parameters.updateKeys;
      CarryKeys(if announced.Some? then announced.value else keys, entries[1..])
  }

  function EffectiveKeys(entries: seq<LogEntry>): seq<string> {
    CarryKeys([], entries)
  }

  lemma {:induction false} CarryKeysAppend(keys: seq<string>, entries: seq<LogEntry>, e: LogEntry)
    ensures CarryKeys(keys, entries + [e]) ==
            if e.parameters.updateKeys.Some? then e.parameters.updateKeys.value else CarryKeys(keys, entries)
    decreases |entries|
  {
    if entries == [] {
      assert entries + [e] == [e] && [e][1..] == [];
    } else {
      var announced := entries[0].parameters.updateKeys;
      assert (entries + [e])[0] == entries[0] && (entries + [e])[1..] == entries[1..] + [e];
      CarryKeysAppend(if announced.Some? then announced.value else keys, entries[1..], e);
    }
  }

  lemma KeysAfter(entries: seq<LogEntry>, i: nat)
    requires i < |entries|
    ensures EffectiveKeys(entries[..i + 1]) ==
            if entries[i].parameters.updateKeys.Some? then entries[i].parameters.updateKeys.value
            else EffectiveKeys(entries[..i])
  {
    assert entries[..i + 1] == entries[..i] + [entries[i]];
    CarryKeysAppend([], entries[..i], entries[i]);
  }

  /** The keys that may sign entry `i`: its own at genesis, otherwise those in force before it. */
  function AuthorizedKeys(entries: seq<LogEntry>, i: nat): Option<seq<string>>
    requires i < |entries|
  {
    if i == 0 then entries[0].parameters.updateKeys else Some(EffectiveKeys(entries[..i]))
  }

  function PrevVersionId(entries: seq<LogEntry>, i: nat): Option<string>
    requires i <= |entries|
  {
    if i == 0 then None else Some(entries[i - 1].versionId)
  }

  predicate AllTdw(entries: seq<LogEntry>) {
    forall i | 0 <= i < |entries| :: entries[i].format == Tdw03
  }

  function EntryResult(c: Crypto, entries: seq<LogEntry>, did: Did.Did, i: nat): Result<(), VerifyError>
    requires i < |entries| && entries[i].format == Tdw03 && did.scid.Some?
  {
    match AuthorizedKeys(entries, i)
    case None => Err(MissingGenesisUpdateKeys)
    case Some(keys) =>
      VerifyEntry(c, i, entries[i], did.scid.value, did.ToString(), PrevVersionId(entries, i), keys)
  }

  function FirstUnsupported(entries: seq<LogEntry>, i: nat): Result<(), VerifyError>
    requires i <= |entries|
    decreases |entries| - i
  {
    if i == |entries| then Ok(())
    else if entries[i].format != Tdw03 then Err(UnsupportedFormat(i))
    else FirstUnsupported(entries, i + 1)
  }

  function FirstFailure(c: Crypto, entries: seq<LogEntry>, did: Did.Did, i: nat): Result<(), VerifyError>
    requires i <= |entries| && AllTdw(entries) && did.scid.Some?
    decreases |entries| - i
  {
    if i == |entries| then Ok(())
    else
      var _ :- EntryResult(c, entries, did, i);
      FirstFailure(c, entries, did, i + 1)
  }

  lemma {:induction false} UnsupportedIsFirst(entries: seq<LogEntry>, i: nat)
    requires i <= |entries| && forall j | 0 <= j < i :: entries[j].format == Tdw03
    ensures FirstUnsupported(entries, i).Ok? <==> AllTdw(entries)
    ensures FirstUnsupported(entries, i).Err? ==>
              exists k | i <= k < |entries| ::
                FirstUnsupported(entries, i) == Err(UnsupportedFormat(k)) && entries[k].format != Tdw03
                && forall j | 0 <= j < k :: entries[j].format == Tdw03
    decreases |entries| - i
  {
    if i == |entries| {
    } else {
      if entries[i].format == Tdw03 {
        UnsupportedIsFirst(entries, i + 1);
      }
    }
  }

  /** What `verify_log` returns: format errors of any entry come before chain errors. */
  function VerifyResult(c: Crypto, entries: seq<LogEntry>, did: Did.Did): Result<(), VerifyError> {
    if entries == [] then Err(Empty)
    else if did.scid.None? then Err(DidWithoutScid(did.ToString()))
    else
      UnsupportedIsFirst(entries, 0);
      var _ :- FirstUnsupported(entries, 0);
      FirstFailure(c, entries, did, 0)
  }

  method VerifyLog(c: Crypto, entries: seq<LogEntry>, did: Did.Did) returns (r: Result<(), VerifyError>)
    ensures r == VerifyResult(c, entries, did)
  {
    if |entries| == 0 {
      return Err(Empty);
    }
    if did.scid.None? {
      return Err(DidWithoutScid(did.ToString()));
    }
    var claimedScid := did.scid.value;
    var didStr := did.ToString();
    UnsupportedIsFirst(entries, 0);
    for i := 0 to |entries|
      invariant FirstUnsupported(entries, 0) == FirstUnsupported(entries, i)
    {
      if entries[i].format != Tdw03 {
        return Err(UnsupportedFormat(i));
      }
    }
    var effectiveUpdateKeys: seq<string> := [];
    var prevVersionId: Option<string> := None;
    for i := 0 to |entries|
      invariant AllTdw(entries)
      invariant effectiveUpdateKeys == EffectiveKeys(entries[..i])
      invariant prevVersionId == PrevVersionId(entries, i)
      invariant FirstFailure(c, entries, did, 0) == FirstFailure(c, entries, did, i)
    {
      var entry := entries[i];
      var authKeys := effectiveUpdateKeys;
      if i == 0 {
        if entry.parameters.updateKeys.None? {
          return Err(MissingGenesisUpdateKeys);
        }
        authKeys := entry.parameters.updateKeys.value;
      }
      var checked := VerifyEntry(c, i, entry, claimedScid, didStr, prevVersionId, authKeys);
      if checked.Err? {
        return checked;
      }
      KeysAfter(entries, i);
      if entry.parameters.updateKeys.Some? {
        effectiveUpdateKeys := entry.parameters.updateKeys.value;
      }
      prevVersionId := Some(entry.versionId);
    }
    return Ok(());
  }

  // --- what acceptance means ---

  predicate DocumentIdIs(e: LogEntry, did: string) {
    e.state.Value? && e.state.doc.GetStr("id") == Some(did)
  }

  /** What entry `i` is hashed with in place of its versionId. */
  function Slot(entries: seq<LogEntry>, did: Did.Did, i: nat): string
    requires i < |entries| && did.scid.Some?
  {
    if i == 0 then did.scid.value else entries[i - 1].versionId
  }

  function HashInput(entries: seq<LogEntry>, did: Did.Did, i: nat): Json
    requires i < |entries| && entries[i].format == Tdw03 && did.scid.Some?
  {
    HashingForm(entries[i], Slot(entries, did, i))
  }

  function Preliminary(entries: seq<LogEntry>, did: Did.Did): Json
    requires entries != [] && entries[0].format == Tdw03 && did.scid.Some? && did.scid.value != ""
  {
    ReplaceStrings(HashInput(entries, did, 0), did.scid.value, PLACEHOLDER)
  }

  /** The first proof is a signature by `key`, known as `multikey`, over its own options and the document. */
  ghost predicate SignedBy(c: Crypto, e: LogEntry, multikey: string, key: Bytes, signature: Bytes) {
    && e.state.Value? && e.proofs != [] && e.proofs[0].Obj?
    && '#' !in multikey
    && e.proofs[0].GetStr("verificationMethod") == Some("did:key:" + (multikey + "#" + multikey))
    && DecodeMultikey(c, multikey) == Ok(key) && c.edValid(key)
    && e.proofs[0].GetStr("proofValue").Some?
    && DecodeMultibase(c, e.proofs[0].GetStr("proofValue").value) == Ok(signature) && |signature| == 64
    && c.edVerify(key, c.sha256(Obj(e.proofs[0].members - {"proofValue"})) + c.sha256(e.state.doc), signature)
  }

  ghost predicate SignedByOneOf(c: Crypto, e: LogEntry, keys: seq<string>) {
    exists multikey, key, signature :: multikey in keys && SignedBy(c, e, multikey, key, signature)
  }

  const CHECKS := 6

  /** The conditions on entry `i`, in the order in which a violation is reported. */
  ghost predicate Check(c: Crypto, entries: seq<LogEntry>, did: Did.Did, i: nat, k: nat)
    requires i < |entries| && entries[i].format == Tdw03 && did.scid.Some?
  {
    var e := entries[i];
    match k
    case 0 => AuthorizedKeys(entries, i).Some?
    case 1 => DocumentIdIs(e, did.ToString())
    case 2 => Decimal((i + 1) % U32_LIMIT) + "-" <= e.versionId
    case 3 => e.versionId == Decimal((i + 1) % U32_LIMIT) + "-" + HashLogEntry(c, HashInput(entries, did, i))
    case 4 => i == 0 ==> did.scid.value != "" && did.scid.value == HashLogEntry(c, Preliminary(entries, did))
    case 5 => AuthorizedKeys(entries, i).Some? && SignedByOneOf(c, e, AuthorizedKeys(entries, i).value)
    case _ => true
  }

  ghost predicate EntryOk(c: Crypto, entries: seq<LogEntry>, did: Did.Did, i: nat)
    requires i < |entries| && entries[i].format == Tdw03 && did.scid.Some?
  {
    forall k: nat | k < CHECKS :: Check(c, entries, did, i, k)
  }

  ghost predicate Accepted(c: Crypto, entries: seq<LogEntry>, did: Did.Did) {
    && entries != [] && did.scid.Some? && AllTdw(entries)
    && forall i: nat | i < |entries| :: EntryOk(c, entries, did, i)
  }

  /** Which check an entry error reports. */
  function CheckOf(error: VerifyError): nat {
    match error
    case MissingGenesisUpdateKeys => 0
    case PatchState(_) => 1
    case MalformedEntry(_, NoDocumentId) => 1
    case DidIdentifierMismatch(_, _, _) => 1
    case VersionIdSequenceMismatch(_, _, _) => 2
    case EntryHashMismatch(_, _, _) => 3
    case MalformedEntry(_, PreliminaryNotJson) => 4
    case ScidMismatch(_, _) => 4
    case _ => 5
  }

  lemma DidKeyVm(vm: string, multikey: string)
    ensures ParseDidKeyVm(vm) == Some(multikey) <==>
            '#' !in multikey && vm == "did:key:" + (multikey + "#" + multikey)
  {
    var prefix := "did:key:";
    if '#' !in multikey && vm == prefix + (multikey + "#" + multikey) {
      StripPrefixOf(prefix, multikey + "#" + multikey);
      SplitOnceAt(multikey, '#', multikey);
    }
  }

  lemma ProofIsExact(c: Crypto, i: nat, e: LogEntry, keys: seq<string>)
    requires e.state.Value?
    ensures VerifyProof(c, i, e, e.state.doc, keys).Ok? <==> SignedByOneOf(c, e, keys)
    ensures VerifyProof(c, i, e, e.state.doc, keys).Err? ==>
              CheckOf(VerifyProof(c, i, e, e.state.doc, keys).error) == 5
  {
    hide ParseDidKeyVm, DecodeMultikey, DecodeMultibase;
    if e.proofs != [] && e.proofs[0].Obj? && e.proofs[0].GetStr("verificationMethod").Some? {
      var vm := e.proofs[0].GetStr("verificationMethod").value;
      forall multikey {
        DidKeyVm(vm, multikey);
      }
      if VerifyProof(c, i, e, e.state.doc, keys).Ok? {
        var multikey := ParseDidKeyVm(vm).value;
        var signature := DecodeMultibase(c, e.proofs[0].GetStr("proofValue").value).value;
        assert SignedBy(c, e, multikey, DecodeMultikey(c, multikey).value, signature);
      }
    }
  }

  lemma SeqNumberIsPosition(i: nat)
    ensures SeqNumber(i) == (i + 1) % U32_LIMIT
    ensures i + 1 < U32_LIMIT ==> SeqNumber(i) == i + 1
  {
  }

  /** The number of an entry is its position, counted from one in 32 bits. */
  lemma NumberIsPosition(i: nat)
    ensures SeqPrefix(i) == Decimal((i + 1) % U32_LIMIT) + "-"
    ensures i + 1 < U32_LIMIT ==> SeqPrefix(i) == Decimal(i + 1) + "-"
  {
    SeqNumberIsPosition(i);
    hide SeqNumber, Decimal;
  }

  lemma SeqCheckIsExact(i: nat, versionId: string, hash: string)
    ensures StripPrefix(versionId, SeqPrefix(i)).Some? <==> Decimal((i + 1) % U32_LIMIT) + "-" <= versionId
    ensures StripPrefix(versionId, SeqPrefix(i)) == Some(hash)
            <==> versionId == Decimal((i + 1) % U32_LIMIT) + "-" + hash
  {
    NumberIsPosition(i);
    hide SeqPrefix, Decimal;
    var prefix := SeqPrefix(i);
    if versionId == prefix + hash {
      StripPrefixOf(prefix, hash);
    }
  }

  /** What is hashed: the entry without its proofs, with the slot in place of its versionId. */
  lemma HashedForm(e: LogEntry, slot: string)
    requires e.format == Tdw03
    ensures HashingForm(e, slot) == Arr([Str(slot), Str(e.versionTime), e.parameters.ToJson(), e.state.ToJson()])
  {
    hide LogParameters.ToJson, DocState.ToJson;
    assert HashingForm(e, slot).items == [Str(slot), Str(e.versionTime), e.parameters.ToJson(), e.state.ToJson()];
  }

  /** An entry error reports the first check that fails; without error every check holds. */
  lemma EntryResultIsExact(c: Crypto, entries: seq<LogEntry>, did: Did.Did, i: nat)
    requires i < |entries| && entries[i].format == Tdw03 && did.scid.Some?
    ensures EntryResult(c, entries, did, i).Ok? <==> EntryOk(c, entries, did, i)
    ensures EntryResult(c, entries, did, i).Err? ==>
              var k := CheckOf(EntryResult(c, entries, did, i).error);
              !Check(c, entries, did, i, k) && forall j: nat | j < k :: Check(c, entries, did, i, j)
  {
    hide SeqPrefix, HashingForm, HashLogEntry, SignedByOneOf, VerifyProof, StripPrefix, EffectiveKeys, Decimal;
    var e := entries[i];
    SeqCheckIsExact(i, e.versionId, HashLogEntry(c, HashInput(entries, did, i)));
    if e.state.Value? && AuthorizedKeys(entries, i).Some? {
      ProofIsExact(c, i, e, AuthorizedKeys(entries, i).value);
    }
    assert EntryOk(c, entries, did, i) <==>
      (Check(c, entries, did, i, 0) && Check(c, entries, did, i, 1) && Check(c, entries, did, i, 2)
       && Check(c, entries, did, i, 3) && Check(c, entries, did, i, 4) && Check(c, entries, did, i, 5));
  }

  /** What an error reports is so: the position, and the values found and expected there. */
  ghost predicate Reported(c: Crypto, entries: seq<LogEntry>, did: Did.Did, i: nat, error: VerifyError)
    requires i < |entries| && entries[i].format == Tdw03 && did.scid.Some?
  {
    var e := entries[i];
    match error
    case MissingGenesisUpdateKeys => i == 0
    case PatchState(n) => n == i && e.state.Patch?
    case MalformedEntry(n, NoDocumentId) => n == i && e.state.Value? && e.state.doc.GetStr("id").None?
    case DidIdentifierMismatch(n, expected, actual) => n == i && expected == did.ToString() && DocumentIdIs(e, actual)
    case VersionIdSequenceMismatch(n, expectedSeq, versionId) =>
      n == i && expectedSeq == (i + 1) % U32_LIMIT && versionId == e.versionId
    case EntryHashMismatch(n, claimed, derived) =>
      && n == i && e.versionId == Decimal((i + 1) % U32_LIMIT) + "-" + claimed
      && derived == HashLogEntry(c, HashInput(entries, did, i))
    case MalformedEntry(n, PreliminaryNotJson) => n == i == 0 && did.scid.value == ""
    case ScidMismatch(derived, claimed) =>
      && i == 0 && claimed == did.scid.value != ""
      && derived == HashLogEntry(c, Preliminary(entries, did))
    case MissingProof(n) => n == i && e.proofs == []
    case MalformedProof(n, fault) => n == i && e.proofs != [] && FaultIn(c, e.proofs[0], fault)
    case ProofKeyNotAuthorized(n, vm, multikey) =>
      && n == i && e.proofs != [] && e.proofs[0].GetStr("verificationMethod") == Some(vm)
      && ParseDidKeyVm(vm) == Some(multikey)
      && AuthorizedKeys(entries, i).Some? && multikey !in AuthorizedKeys(entries, i).value
    case SignatureInvalid(n) => n == i && e.proofs != []
    case _ => false
  }

  predicate FaultIn(c: Crypto, proof: Json, fault: ProofFault) {
    var vm, value := proof.GetStr("verificationMethod"), proof.GetStr("proofValue");
    match fault
    case NotAnObject => !proof.Obj?
    case NoVerificationMethod => proof.Obj? && vm.None?
    case NotDidKey => vm.Some? && ParseDidKeyVm(vm.value).None?
    case BadMultikey(cause) =>
      vm.Some? && ParseDidKeyVm(vm.value).Some? && DecodeMultikey(c, ParseDidKeyVm(vm.value).value) == Err(cause)
    case InvalidKey => vm.Some?
    case NoProofValue => value.None?
    case BadProofValue(cause) => value.Some? && DecodeMultibase(c, value.value) == Err(cause)
    case BadProofLength(got) =>
      value.Some? && DecodeMultibase(c, value.value).Ok? && |DecodeMultibase(c, value.value).value| == got != 64
  }

  lemma ProofErrorIsReported(c: Crypto, entries: seq<LogEntry>, did: Did.Did, i: nat, keys: seq<string>)
    requires i < |entries| && entries[i].format == Tdw03 && did.scid.Some? && entries[i].state.Value?
    requires AuthorizedKeys(entries, i) == Some(keys)
    ensures var r := VerifyProof(c, i, entries[i], entries[i].state.doc, keys);
            r.Err? ==> Reported(c, entries, did, i, r.error)
  {
    hide ParseDidKeyVm, DecodeMultikey, DecodeMultibase, AuthorizedKeys, HashInput, HashLogEntry, Preliminary;
  }

  lemma ErrorIsReported(c: Crypto, entries: seq<LogEntry>, did: Did.Did, i: nat)
    requires i < |entries| && entries[i].format == Tdw03 && did.scid.Some?
    ensures EntryResult(c, entries, did, i).Err? ==> Reported(c, entries, did, i, EntryResult(c, entries, did, i).error)
  {
    hide SeqPrefix, SeqNumber, HashingForm, HashLogEntry, VerifyProof, StripPrefix, EffectiveKeys, Decimal, FaultIn;
    var e := entries[i];
    NumberIsPosition(i);
    SeqNumberIsPosition(i);
    if StripPrefix(e.versionId, SeqPrefix(i)).Some? {
      SeqCheckIsExact(i, e.versionId, StripPrefix(e.versionId, SeqPrefix(i)).value);
    }
    if e.state.Value? && AuthorizedKeys(entries, i).Some? {
      ProofErrorIsReported(c, entries, did, i, AuthorizedKeys(entries, i).value);
    }
  }

  lemma {:induction false} FailureIsFirst(c: Crypto, entries: seq<LogEntry>, did: Did.Did, i: nat)
    requires i <= |entries| && AllTdw(entries) && did.scid.Some?
    requires forall j: nat | j < i :: EntryOk(c, entries, did, j)
    ensures FirstFailure(c, entries, did, i).Ok? <==> forall j: nat | j < |entries| :: EntryOk(c, entries, did, j)
    ensures FirstFailure(c, entries, did, i).Err? ==>
              exists k: nat | k < |entries| ::
                EntryFailsFirst(c, entries, did, k, FirstFailure(c, entries, did, i).error)
    decreases |entries| - i
  {
    hide EntryResult, EntryOk, Check, Reported;
    if i == |entries| {
    } else {
      EntryResultIsExact(c, entries, did, i);
      ErrorIsReported(c, entries, did, i);
      if EntryResult(c, entries, did, i).Ok? {
        FailureIsFirst(c, entries, did, i + 1);
      } else {
        assert EntryFailsFirst(c, entries, did, i, EntryResult(c, entries, did, i).error);
      }
    }
  }

  /** Entry `k` is the first bad entry, and `error` names the first of its checks to fail. */
  ghost predicate EntryFailsFirst(c: Crypto, entries: seq<LogEntry>, did: Did.Did, k: nat, error: VerifyError)
    requires k < |entries| && AllTdw(entries) && did.scid.Some?
  {
    && (forall j: nat | j < k :: EntryOk(c, entries, did, j))
    && EntryResult(c, entries, did, k) == Err(error) && Reported(c, entries, did, k, error)
    && !Check(c, entries, did, k, CheckOf(error))
    && forall j: nat | j < CheckOf(error) :: Check(c, entries, did, k, j)
  }

  /** The verifier accepts exactly the logs of `Accepted`, and otherwise reports the first failing check. */
  lemma VerifierIsExact(c: Crypto, entries: seq<LogEntry>, did: Did.Did)
    ensures VerifyResult(c, entries, did).Ok? <==> Accepted(c, entries, did)
    ensures entries == [] ==> VerifyResult(c, entries, did) == Err(Empty)
    ensures entries != [] && did.scid.None? ==> VerifyResult(c, entries, did) == Err(DidWithoutScid(did.ToString()))
    ensures entries != [] && did.scid.Some? && !AllTdw(entries) ==>
              exists k | 0 <= k < |entries| ::
                VerifyResult(c, entries, did) == Err(UnsupportedFormat(k)) && entries[k].format != Tdw03
                && forall j | 0 <= j < k :: entries[j].format == Tdw03
    ensures entries != [] && did.scid.Some? && AllTdw(entries) && VerifyResult(c, entries, did).Err? ==>
              exists k: nat | k < |entries| :: EntryFailsFirst(c, entries, did, k, VerifyResult(c, entries, did).error)
  {
    UnsupportedIsFirst(entries, 0);
    if entries != [] && did.scid.Some? && AllTdw(entries) {
      FailureIsFirst(c, entries, did, 0);
    }
  }

  lemma EntryOkInPrefix(c: Crypto, entries: seq<LogEntry>, more: seq<LogEntry>, did: Did.Did, i: nat)
    requires i < |entries| && entries[i].format == Tdw03 && did.scid.Some?
    ensures EntryOk(c, entries + more, did, i) <==> EntryOk(c, entries, did, i)
  {
    hide HashingForm, HashLogEntry, SignedByOneOf, Decimal, EffectiveKeys;
    assert (entries + more)[i] == entries[i];
    assert i > 0 ==> (entries + more)[i - 1] == entries[i - 1];
    assert (entries + more)[..i] == entries[..i];
    assert forall k: nat | k < CHECKS :: Check(c, entries + more, did, i, k) <==> Check(c, entries, did, i, k);
  }

  /** Entry `i` of an accepted log carries the number `i + 1`, followed by its hash. */
  lemma AcceptedNumbers(c: Crypto, entries: seq<LogEntry>, did: Did.Did, i: nat)
    requires Accepted(c, entries, did) && i < |entries| && i + 1 < U32_LIMIT
    ensures entries[i].versionId == Decimal(i + 1) + "-" + HashLogEntry(c, HashInput(entries, did, i))
  {
    hide HashInput, HashLogEntry, Decimal, SignedByOneOf, EffectiveKeys;
    assert EntryOk(c, entries, did, i);
    assert Check(c, entries, did, i, 3);
  }

  /** Every non-empty prefix of an accepted log is accepted. */
  lemma AcceptedPrefix(c: Crypto, entries: seq<LogEntry>, more: seq<LogEntry>, did: Did.Did)
    requires entries != [] && Accepted(c, entries + more, did)
    ensures Accepted(c, entries, did)
  {
    forall i: nat | i < |entries| ensures entries[i].format == Tdw03 && EntryOk(c, entries, did, i) {
      assert (entries + more)[i] == entries[i];
      EntryOkInPrefix(c, entries, more, did, i);
    }
  }

  /** Appending one entry: the log stays accepted exactly when the new entry passes its own checks. */
  lemma AcceptedAppend(c: Crypto, entries: seq<LogEntry>, e: LogEntry, did: Did.Did)
    requires Accepted(c, entries, did)
    ensures Accepted(c, entries + [e], did) <==> e.format == Tdw03 && EntryOk(c, entries + [e], did, |entries|)
  {
    var longer := entries + [e];
    assert longer[|entries|] == e;
    if e.format == Tdw03 && EntryOk(c, longer, did, |entries|) {
      forall i: nat | i < |longer| ensures EntryOk(c, longer, did, i) {
        if i < |entries| {
          EntryOkInPrefix(c, entries, [e], did, i);
        }
      }
    }
  }
}
