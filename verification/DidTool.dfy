/**
 The `did` commands step by step, each against the function on values of `Producer`
 (swiyu-didtool/src/cmd/did/create.rs, rotate.rs, deactivate.rs and swiyu-didtool/src/cmd/didlog.rs).
 */
module DidTool {
  import opened Basics
  import opened Json
  import opened Crypto
  import opened Scid
  import opened LogEntry
  import opened EntryEdits
  import opened Jsonl
  import opened VersionTime
  import opened LogVerifier
  import opened LogSecurity
  import opened Producer
  import KeyStore
  import DidDoc
  import Did
  import DidUrl
  import Proof

  /** The log file. */
  class LogFile {
    var text: string

    constructor (text: string)
      ensures this.text == text
    {
      this.text := text;
    }
  }

  /** The log file is written before the keys are committed, so it changes even if the DID is already stored. */
  method CmdCreate(tool: Tool, store: KeyStore.KeyStore, out: LogFile, url: string, format: Format, files: KeyFiles,
                   generated: KeyStore.KeySet, now: int) returns (r: Result<Did.Did, CreateError>)
    requires store.didHash == tool.didHash
    modifies store, out
    ensures match CreateOutcome(tool, old(store.dirs), url, format, files, generated, now)
      case Ok((did, text, dirs)) => r == Ok(did) && store.dirs == dirs && out.text == text
      case Err(e) => r == Err(e) && store.dirs == old(store.dirs)
    ensures match CreateText(tool, url, format, files, generated, now)
      case Some(text) => out.text == text
      case None => out.text == old(out.text)
  {
    hide HashLogEntry, ReplaceStrings, WithoutProofSlot, WithVersionId, WithProof, SignedProof,
         DidUrl.UrlToDidComponents, PreparedKeys, Did.TryNew;
    var components := DidUrl.ParseUrl(url);
    if components.Err? {
      return Err(Url(components.error));
    }
    var (domain, path) := components.value;
    var prepared := PreparedKeys(tool, files, generated);
    if prepared.Err? {
      return Err(prepared.error);
    }
    var staged := prepared.value;
    var authorizedMultikey := AuthorizedMultikey(tool, staged);

    var placeholder := Did.TryNew(KindOf(format), None, domain, path);
    if placeholder.Err? {
      return Err(BadDid(placeholder.error));
    }
    var nowText := NowText(tool, now);
    var template := NewGenesisEntry(tool.crypto, format, authorizedMultikey, placeholder.value.ToString(),
                                    tool.p256Public(staged.authentication), tool.p256Public(staged.assertion), nowText);
    var prelim := new ValueCell(template.ToJson());
    prelim.StripProofSlot(format);

    var scid := HashLogEntry(tool.crypto, prelim.value);
    var entryValue := new ValueCell(ReplaceStrings(prelim.value, PLACEHOLDER, scid));
    var versionId := "1-" + HashLogEntry(tool.crypto, entryValue.value);
    entryValue.SetVersionId(versionId, format);

    match Did.TryNew(KindOf(format), Some(scid), domain, path)
    case Err(e) =>
      return Err(BadDid(e));
    case Ok(realDid) =>
      var proof := SignedProof(tool, staged, DocumentIn(entryValue.value, format), PurposeOf(format), versionId,
                               nowText);
      entryValue.AppendProof(proof, format);
      out.text := tool.text.print_(entryValue.value) + "\n";
      var committed := store.Commit(staged, realDid);
      if committed.Err? {
        return Err(Store(committed.error));
      }
      return Ok(realDid);
  }

  method LoadLog(tool: Tool, text: string, target: Option<Did.Did>) returns (r: Result<seq<LogEntry>, LoadError>)
    ensures r == LoadResult(tool, text, target)
  {
    hide FromJsonl, VerifyResult, CurrentDidOf, Did.FromStr;
    var parsed := TryFromJsonl(tool.text, text);
    if parsed.Err? {
      return Err(Parse(parsed.error));
    }
    var entries := parsed.value;
    if entries == [] || entries[0].format != Tdw03 {
      return Ok(entries);
    }
    var didForVerify := target;
    if target.None? {
      var current := CurrentDid(entries);
      if current.Some? {
        var parsedDid := Did.FromStr(current.value);
        if parsedDid.Ok? {
          didForVerify := Some(parsedDid.value);
        }
      }
    }
    if didForVerify.Some? {
      var verified := VerifyLog(tool.crypto, entries, didForVerify.value);
      if verified.Err? {
        return Err(Verification(verified.error));
      }
    }
    return Ok(entries);
  }

  method PlanRotation(roles: seq<Role>, files: KeyFiles) returns (r: Result<Plan, ChangeError>)
    ensures r == PlanOf(roles, files)
  {
    var auth, authn, assert_ := Keep, Keep, Keep;
    for i := 0 to |roles|
      invariant auth == if Authorized in roles[..i] || All in roles[..i] then Generate else Keep
      invariant authn == if Authentication in roles[..i] || All in roles[..i] then Generate else Keep
      invariant assert_ == if Assertion in roles[..i] || All in roles[..i] then Generate else Keep
    {
      assert roles[..i + 1] == roles[..i] + [roles[i]];
      match roles[i]
      case Authorized => auth := Generate;
      case Authentication => authn := Generate;
      case Assertion => assert_ := Generate;
      case All => auth, authn, assert_ := Generate, Generate, Generate;
    }
    assert roles[..|roles|] == roles;
    if files.authorized.Some? {
      if auth == Generate {
        return Err(ConflictingRotation(Authorized));
      }
      auth := Import(files.authorized.value);
    }
    if files.authentication.Some? {
      if authn == Generate {
        return Err(ConflictingRotation(Authentication));
      }
      authn := Import(files.authentication.value);
    }
    if files.assertion.Some? {
      if assert_ == Generate {
        return Err(ConflictingRotation(Assertion));
      }
      assert_ := Import(files.assertion.value);
    }
    if auth == Keep && authn == Keep && assert_ == Keep {
      return Err(NoChange);
    }
    return Ok(Plan(auth, authn, assert_));
  }

  /** The DID of a loaded log, its place in the key store and its latest keys. */
  method FindCurrentKeys(tool: Tool, store: KeyStore.KeyStore, entries: seq<LogEntry>)
    returns (r: Result<(string, string, KeyStore.EntryDir, KeyStore.KeySet), ChangeError>)
    requires store.didHash == tool.didHash
    ensures r == CurrentKeys(tool, store.dirs, entries)
    ensures r.Ok? ==> var (_, hash, dir, _) := r.value;
                      hash in store.dirs && store.dirs[hash] == dir && KeyStore.LatestVersion(dir).Some?
  {
    var current := CurrentDid(entries);
    if current.None? {
      return Err(DidNotInLog);
    }
    var didStr := current.value;
    var parsed := Did.FromStr(didStr);
    if parsed.Err? {
      return Err(InvalidDid(didStr, parsed.error));
    }
    var did := parsed.value;
    var found := store.FindDid(did);
    if found.Err? {
      return Err(StoreFailed(found.error));
    }
    if found.value.None? {
      return Err(KeyStoreMiss(didStr));
    }
    var dir := found.value.value;
    var hash := store.didHash(did.ToString());
    var version := KeyStore.LatestVersion(dir);
    if version.None? {
      return Err(StoreFailed(KeyStore.NotFound(hash)));
    }
    var keys := KeyStore.KeysAt(dir, version.value);
    if keys.None? {
      return Err(StoreFailed(KeyStore.NotFound(hash)));
    }
    return Ok((didStr, hash, dir, keys.value));
  }

  lemma RawParameters(next: string, current: string)
    ensures RotationParameters(current, next).ToJson()
            == Obj(if current == next then map[] else map["updateKeys" := Arr([Str(next)])])
    ensures DeactivationParameters().ToJson() == Obj(map["deactivated" := Bool(true), "updateKeys" := Arr([])])
  {
    assert Strings([next]) == [Str(next)] && Strings([]) == [];
    var rotated, ended := RotationParameters(current, next).ToJson().members, DeactivationParameters().ToJson().members;
    assert "updateKeys" in PARAMETER_NAMES && "deactivated" in PARAMETER_NAMES;
    assert rotated.Keys == if current == next then {} else {"updateKeys"};
    assert ended.Keys == {"updateKeys", "deactivated"};
  }

  method CmdRotate(tool: Tool, store: KeyStore.KeyStore, text: string, roles: seq<Role>, files: KeyFiles,
                   generated: KeyStore.KeySet, now: int) returns (r: Result<string, ChangeError>)
    requires store.didHash == tool.didHash
    modifies store
    ensures match RotateResult(tool, old(store.dirs), text, roles, files, generated, now)
      case Ok((updated, dirs)) => r == Ok(updated) && store.dirs == dirs
      case Err(e) => r == Err(e) && store.dirs == old(store.dirs)
  {
    hide HashLogEntry, SignedProof, PlanOf, LoadResult, CurrentKeys, StagedKeys, UpdatedLog, CollectRawLines,
         ComputeVersionTime, KeyStore.LatestVersion, KeyStore.WithNextVersion, DidDoc.DocToJson, RotationParameters,
         SeqPrefix;
    var planned := PlanRotation(roles, files);
    if planned.Err? {
      return Err(planned.error);
    }
    var loaded := LoadLog(tool, text, None);
    if loaded.Err? {
      return Err(Load(loaded.error));
    }
    var entries := loaded.value;
    if entries == [] {
      return Err(EmptyLog);
    }
    var last := entries[|entries| - 1];
    if last.format != Tdw03 {
      return Err(UnsupportedLogFormat);
    }
    var found := FindCurrentKeys(tool, store, entries);
    if found.Err? {
      return Err(found.error);
    }
    var (didStr, hash, dir, current) := found.value;
    var prevMultikey := AuthorizedMultikey(tool, current);
    var staging := StagedKeys(tool, planned.value, current, generated);
    if staging.Err? {
      return Err(staging.error);
    }
    var staged := staging.value;
    var newMultikey := AuthorizedMultikey(tool, staged);

    var newDoc := DidDoc.DocToJson(tool.crypto,
      DidDoc.NewGenesis(tool.crypto, didStr, tool.p256Public(staged.authentication),
                        tool.p256Public(staged.assertion)));
    var parameters: map<string, Json> := map[];
    if prevMultikey != newMultikey {
      parameters := parameters["updateKeys" := Arr([Str(newMultikey)])];
    }
    RawParameters(newMultikey, prevMultikey);
    var newTime := ComputeVersionTime(tool.time, last.versionTime, now);

    var entryValue := [Str(last.versionId), Str(newTime), Obj(parameters), Obj(map["value" := newDoc])];
    var newVersionId := SeqPrefix(|entries|) + HashLogEntry(tool.crypto, Arr(entryValue));
    entryValue := entryValue[0 := Str(newVersionId)];
    var proof := SignedProof(tool, current, DocumentIn(Arr(entryValue), Tdw03), Proof.Authentication, newVersionId,
                             newTime);
    entryValue := entryValue + [Arr([proof])];

    var newLine := tool.text.print_(Arr(entryValue));
    var updated := BuildUpdatedLog(CollectRawLines(text), newLine);
    var added := store.AddVersion(hash, staged);
    return Ok(updated);
  }

  method CmdDeactivate(tool: Tool, store: KeyStore.KeyStore, text: string, now: int)
    returns (r: Result<string, ChangeError>)
    requires store.didHash == tool.didHash
    ensures r == DeactivateResult(tool, store.dirs, text, now)
  {
    hide HashLogEntry, SignedProof, LoadResult, CurrentKeys, UpdatedLog, CollectRawLines, ComputeVersionTime,
         KeyStore.LatestVersion, DeactivationParameters, SeqPrefix;
    var loaded := LoadLog(tool, text, None);
    if loaded.Err? {
      return Err(Load(loaded.error));
    }
    var entries := loaded.value;
    if entries == [] {
      return Err(EmptyLog);
    }
    var last := entries[|entries| - 1];
    if last.format != Tdw03 {
      return Err(UnsupportedLogFormat);
    }
    if last.parameters.deactivated == Some(true) {
      return Err(AlreadyDeactivated);
    }
    if last.state.Patch? {
      return Err(PreviousStateIsPatch);
    }
    var prevDoc := last.state.doc;
    var found := FindCurrentKeys(tool, store, entries);
    if found.Err? {
      return Err(found.error);
    }
    var (_, _, _, current) := found.value;
    var newTime := ComputeVersionTime(tool.time, last.versionTime, now);

    RawParameters("", "");
    var parameters := Obj(map["deactivated" := Bool(true), "updateKeys" := Arr([])]);
    var entryValue := [Str(last.versionId), Str(newTime), parameters, Obj(map["value" := prevDoc])];
    var newVersionId := SeqPrefix(|entries|) + HashLogEntry(tool.crypto, Arr(entryValue));
    entryValue := entryValue[0 := Str(newVersionId)];
    var proof := SignedProof(tool, current, DocumentIn(Arr(entryValue), Tdw03), Proof.Authentication, newVersionId,
                             newTime);
    entryValue := entryValue + [Arr([proof])];

    var newLine := tool.text.print_(Arr(entryValue));
    var updated := BuildUpdatedLog(CollectRawLines(text), newLine);
    return Ok(updated);
  }
}
