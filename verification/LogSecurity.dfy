/**
 What an accepted did:tdw log guarantees: finality of an empty key list, agreement of the two ways of
 finding the current keys, self-certification of the genesis entry and tamper evidence of the chain.
 Collision freeness is only assumed of the values that the logs at hand hash.
 */
module LogSecurity {
  import opened Basics
  import opened Text
  import opened Json
  import opened Crypto
  import opened Scid
  import opened LogEntry
  import opened LogVerifier
  import Did

  // --- finality ---

  lemma NextEntryNeedsAKey(c: Crypto, entries: seq<LogEntry>, did: Did.Did, i: nat)
    requires Accepted(c, entries, did) && i + 1 < |entries|
    ensures entries[i].parameters.updateKeys != Some([])
  {
    assert EntryOk(c, entries, did, i + 1);
    assert Check(c, entries, did, i + 1, 5);
    KeysAfter(entries, i);
  }

  /** After an entry that announces no keys, no extension is accepted, whoever signed it. */
  lemma EmptyKeysAreFinal(c: Crypto, entries: seq<LogEntry>, more: seq<LogEntry>, did: Did.Did)
    requires entries != [] && more != []
    requires entries[|entries| - 1].parameters.updateKeys == Some([])
    ensures !Accepted(c, entries + more, did)
  {
    if Accepted(c, entries + more, did) {
      NextEntryNeedsAKey(c, entries + more, did, |entries| - 1);
    }
  }

  // --- current keys and current DID ---

  /** The backward search of `pop verify` (swiyu-didtool/src/cmd/pop/verify.rs). */
  function LastAnnounced(entries: seq<LogEntry>): Option<seq<string>> {
    if entries == [] then None
    else
      var last := entries[|entries| - 1].parameters.updateKeys;
      if last.Some? then last else LastAnnounced(entries[..|entries| - 1])
  }

  function LatestUpdateKeys(entries: seq<LogEntry>): seq<string> {
    match LastAnnounced(entries)
    case Some(keys) => keys
    case None => []
  }

  /** Searching backward finds the keys that the verifier carried forward, for every log. */
  lemma {:induction false} LatestKeysAreEffectiveKeys(entries: seq<LogEntry>)
    ensures LatestUpdateKeys(entries) == EffectiveKeys(entries)
  {
    if entries == [] {
    } else {
      var n := |entries| - 1;
      assert entries[..n + 1] == entries;
      KeysAfter(entries, n);
      LatestKeysAreEffectiveKeys(entries[..n]);
    }
  }

  function CurrentDidOf(entries: seq<LogEntry>): Option<string> {
    if entries == [] then None
    else
      var state := entries[|entries| - 1].state;
      if state.Value? && state.doc.GetStr("id").Some? then state.doc.GetStr("id")
      else CurrentDidOf(entries[..|entries| - 1])
  }

  /** `current_did` (swiyu-didtool/src/cmd/didlog.rs): the newest full document's id. */
  method CurrentDid(entries: seq<LogEntry>) returns (r: Option<string>)
    ensures r == CurrentDidOf(entries)
  {
    var i := |entries|;
    assert entries[..i] == entries;
    while i > 0
      invariant 0 <= i <= |entries|
      invariant CurrentDidOf(entries) == CurrentDidOf(entries[..i])
    {
      i := i - 1;
      assert entries[..i + 1][..i] == entries[..i];
      var state := entries[i].state;
      if state.Value? {
        var id := state.doc.GetStr("id");
        if id.Some? {
          return id;
        }
      }
    }
    return None;
  }

  predicate HasId(e: LogEntry) {
    e.state.Value? && e.state.doc.GetStr("id").Some?
  }

  /** It is the id of the newest entry with a full document that has one. */
  lemma {:induction false} CurrentDidIsNewest(entries: seq<LogEntry>, id: string)
    ensures CurrentDidOf(entries) == Some(id) <==>
            exists i: nat :: i < |entries| && DocumentIdIs(entries[i], id)
                             && forall j | i < j < |entries| :: !HasId(entries[j])
    ensures CurrentDidOf(entries).None? <==> forall e | e in entries :: !HasId(e)
  {
    if entries == [] {
    } else {
      var front, last := entries[..|entries| - 1], entries[|entries| - 1];
      assert entries == front + [last];
      CurrentDidIsNewest(front, id);
      if HasId(last) {
        assert CurrentDidOf(entries) == Some(id) <==> DocumentIdIs(entries[|entries| - 1], id);
      } else {
        assert forall i | 0 <= i < |front| :: entries[i] == front[i];
      }
    }
  }

  lemma CurrentDidIsTheVerifiedDid(c: Crypto, entries: seq<LogEntry>, did: Did.Did)
    requires Accepted(c, entries, did)
    ensures CurrentDidOf(entries) == Some(did.ToString())
  {
    var n := |entries| - 1;
    assert EntryOk(c, entries, did, n);
    assert Check(c, entries, did, n, 1);
  }

  // --- self-certification ---

  /** Same versionId, time, parameters and document as far as they are hashed; the proofs may differ. */
  predicate SameContent(a: LogEntry, b: LogEntry) {
    && a.versionId == b.versionId && a.versionTime == b.versionTime
    && a.parameters.ToJson() == b.parameters.ToJson() && a.state == b.state
  }

  lemma SameHashingForm(a: LogEntry, b: LogEntry, slotA: string, slotB: string)
    requires a.format == Tdw03 == b.format && a.state.Value? && b.state.Value?
    requires HashingForm(a, slotA) == HashingForm(b, slotB)
    ensures slotA == slotB && a.versionTime == b.versionTime
    ensures a.parameters.ToJson() == b.parameters.ToJson() && a.state == b.state
  {
    hide LogParameters.ToJson;
    var x, y := HashingForm(a, slotA).items, HashingForm(b, slotB).items;
    assert x[0] == y[0] && x[1] == y[1] && x[2] == y[2] && x[3] == y[3];
    assert x[3].members["value"] == a.state.doc && y[3].members["value"] == b.state.doc;
  }

  /** The DID determines its genesis entry: two accepted logs of one DID start with the same content. */
  lemma SelfCertification(c: Crypto, a: seq<LogEntry>, b: seq<LogEntry>, did: Did.Did)
    requires Lawful(c) && Accepted(c, a, did) && Accepted(c, b, did)
    requires PlaceholderFree(HashInput(a, did, 0)) && PlaceholderFree(HashInput(b, did, 0))
    requires did.scid.value != "" ==> CollisionFree(c, {Preliminary(a, did), Preliminary(b, did)})
    ensures SameContent(a[0], b[0])
  {
    hide HashingForm, HashLogEntry, ReplaceStrings, PlaceholderFree, CollisionFree, SignedByOneOf, Decimal;
    assert EntryOk(c, a, did, 0) && EntryOk(c, b, did, 0);
    assert Check(c, a, did, 0, 1) && Check(c, a, did, 0, 3) && Check(c, a, did, 0, 4);
    assert Check(c, b, did, 0, 1) && Check(c, b, did, 0, 3) && Check(c, b, did, 0, 4);
    var pa, pb := Preliminary(a, did), Preliminary(b, did);
    HashDeterminesInput(c, {pa, pb}, pa, pb);
    ValueAbstractionInjective(HashInput(a, did, 0), HashInput(b, did, 0), did.scid.value);
    SameHashingForm(a[0], b[0], did.scid.value, did.scid.value);
  }

  lemma SameHashInput(a: seq<LogEntry>, b: seq<LogEntry>, did: Did.Did)
    requires a != [] && b != [] && AllTdw(a) && AllTdw(b) && did.scid.Some? && SameContent(a[0], b[0])
    ensures HashInput(a, did, 0) == HashInput(b, did, 0)
  {
    hide LogParameters.ToJson, DocState.ToJson;
    assert HashInput(a, did, 0).items == HashInput(b, did, 0).items;
  }

  /**
   Next to a placeholder-free genesis entry, another one accepted for the same DID has the same content
   exactly when it is placeholder-free too.
   */
  lemma SelfCertificationIsExact(c: Crypto, a: seq<LogEntry>, b: seq<LogEntry>, did: Did.Did)
    requires Lawful(c) && Accepted(c, a, did) && Accepted(c, b, did)
    requires PlaceholderFree(HashInput(a, did, 0))
    requires did.scid.value != "" ==> CollisionFree(c, {Preliminary(a, did), Preliminary(b, did)})
    ensures SameContent(a[0], b[0]) <==> PlaceholderFree(HashInput(b, did, 0))
  {
    hide PlaceholderFree, HashInput, SameContent, CollisionFree, Preliminary, EntryOk;
    if PlaceholderFree(HashInput(b, did, 0)) {
      SelfCertification(c, a, b, did);
    }
    if SameContent(a[0], b[0]) {
      SameHashInput(a, b, did);
    }
  }

  /** A literal placeholder in the genesis entry is indistinguishable from the SCID. */
  lemma PlaceholderIsAmbiguous(scid: string)
    requires scid != "" && !Contains(PLACEHOLDER, scid)
    ensures ReplaceStrings(Str(PLACEHOLDER), scid, PLACEHOLDER) == ReplaceStrings(Str(scid), scid, PLACEHOLDER)
    ensures Str(PLACEHOLDER) != Str(scid)
  {
    assert scid[0..|scid|] == scid && OccursAt(scid, scid, 0);
    assert ReplaceAll(scid, scid, PLACEHOLDER) == "" + PLACEHOLDER + ReplaceAll("", scid, PLACEHOLDER);
    assert PLACEHOLDER[0..|PLACEHOLDER|] == PLACEHOLDER && OccursAt(PLACEHOLDER, PLACEHOLDER, 0);
  }

  // --- tamper evidence ---

  function HashInputs(entries: seq<LogEntry>, did: Did.Did): set<Json>
    requires AllTdw(entries) && did.scid.Some?
  {
    set i | 0 <= i < |entries| :: HashInput(entries, did, i)
  }

  lemma DecimalHasNoDash(n: nat)
    ensures '-' !in Decimal(n)
  {
  }

  lemma SameVersionId(c: Crypto, i: nat, j: nat, x: Json, y: Json)
    requires Lawful(c) && i < U32_LIMIT && j < U32_LIMIT
    requires Decimal((i + 1) % U32_LIMIT) + "-" + HashLogEntry(c, x)
          == Decimal((j + 1) % U32_LIMIT) + "-" + HashLogEntry(c, y)
    ensures i == j && HashLogEntry(c, x) == HashLogEntry(c, y)
  {
    hide HashLogEntry, Decimal;
    var m, n := Decimal((i + 1) % U32_LIMIT), Decimal((j + 1) % U32_LIMIT);
    DecimalHasNoDash((i + 1) % U32_LIMIT);
    DecimalHasNoDash((j + 1) % U32_LIMIT);
    SplitOnceAt(m, '-', HashLogEntry(c, x));
    SplitOnceAt(n, '-', HashLogEntry(c, y));
    DecimalInjective((i + 1) % U32_LIMIT, (j + 1) % U32_LIMIT);
  }

  /** The versionId of an accepted entry fixes its position and everything hashed into it. */
  lemma VersionIdFixesEntry(c: Crypto, a: seq<LogEntry>, i: nat, b: seq<LogEntry>, j: nat, did: Did.Did,
                            inputs: set<Json>)
    requires Lawful(c) && Accepted(c, a, did) && Accepted(c, b, did)
    requires i < |a| && j < |b| && i < U32_LIMIT && j < U32_LIMIT
    requires HashInput(a, did, i) in inputs && HashInput(b, did, j) in inputs
    requires CollisionFree(c, inputs)
    requires a[i].versionId == b[j].versionId
    ensures i == j && SameContent(a[i], b[j]) && Slot(a, did, i) == Slot(b, did, j)
  {
    hide HashingForm, HashLogEntry, CollisionFree, SignedByOneOf, Decimal;
    assert EntryOk(c, a, did, i) && EntryOk(c, b, did, j);
    assert Check(c, a, did, i, 1) && Check(c, a, did, i, 3);
    assert Check(c, b, did, j, 1) && Check(c, b, did, j, 3);
    SameVersionId(c, i, j, HashInput(a, did, i), HashInput(b, did, j));
    HashDeterminesInput(c, inputs, HashInput(a, did, i), HashInput(b, did, j));
    SameHashingForm(a[i], b[j], Slot(a, did, i), Slot(b, did, j));
  }

  lemma {:induction false} AgreeUpTo(c: Crypto, a: seq<LogEntry>, b: seq<LogEntry>, did: Did.Did, i: nat)
    requires Lawful(c) && Accepted(c, a, did) && Accepted(c, b, did)
    requires i < |a| && i < |b| && i < U32_LIMIT
    requires CollisionFree(c, HashInputs(a, did) + HashInputs(b, did))
    requires a[i].versionId == b[i].versionId
    ensures forall k: nat | k <= i :: SameContent(a[k], b[k])
  {
    hide CollisionFree, SameContent, HashInput;
    VersionIdFixesEntry(c, a, i, b, i, did, HashInputs(a, did) + HashInputs(b, did));
    if i == 0 {
    } else {
      AgreeUpTo(c, a, b, did, i - 1);
    }
  }

  /**
   Two accepted logs of one DID that end in the same versionId have the same length and agree entry by
   entry on all that is hashed, and so on the keys in force.
   */
  lemma TamperEvidence(c: Crypto, a: seq<LogEntry>, b: seq<LogEntry>, did: Did.Did)
    requires Lawful(c) && Accepted(c, a, did) && Accepted(c, b, did)
    requires |a| <= U32_LIMIT && |b| <= U32_LIMIT
    requires CollisionFree(c, HashInputs(a, did) + HashInputs(b, did))
    requires a[|a| - 1].versionId == b[|b| - 1].versionId
    ensures |a| == |b| && forall k: nat | k < |a| :: SameContent(a[k], b[k])
    ensures EffectiveKeys(a) == EffectiveKeys(b)
  {
    hide CollisionFree, SameContent, HashInput;
    VersionIdFixesEntry(c, a, |a| - 1, b, |b| - 1, did, HashInputs(a, did) + HashInputs(b, did));
    AgreeUpTo(c, a, b, did, |a| - 1);
    SameKeysCarried([], a, b);
  }

  lemma SameAnnouncement(a: LogEntry, b: LogEntry)
    requires SameContent(a, b)
    ensures a.parameters.updateKeys == b.parameters.updateKeys
  {
    hide LogParameters.ToJson;
    ParsePrintedStrings(a.parameters, "updateKeys", a.parameters.updateKeys);
    ParsePrintedStrings(b.parameters, "updateKeys", b.parameters.updateKeys);
  }

  lemma {:induction false} SameKeysCarried(keys: seq<string>, a: seq<LogEntry>, b: seq<LogEntry>)
    requires |a| == |b| && forall k: nat | k < |a| :: SameContent(a[k], b[k])
    ensures CarryKeys(keys, a) == CarryKeys(keys, b)
    decreases |a|
  {
    hide SameContent;
    if a == [] {
    } else {
      SameAnnouncement(a[0], b[0]);
      var announced := a[0].parameters.updateKeys;
      SameKeysCarried(if announced.Some? then announced.value else keys, a[1..], b[1..]);
    }
  }
}
