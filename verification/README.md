# Verified model of the did:tdw log protocol and its neighbours

A Dafny model of the parts of this repository where a mistake is hard to see in one place: the DID log
protocol from `did create` to the chain verifier, and four smaller cores beside it. `dafny verify
dfyconfig.toml` checks everything.

**The log protocol.** A did:tdw 0.3 log is a JSON Lines file. Its first entry contains the SCID, which is a hash of
that entry with `{SCID}` in place of the SCID; each further entry is chained to its predecessor by hash and signed
with a key that the log itself announced. `Producer` says what `create`, `rotate` and `deactivate` build, `DidTool`
holds the commands step by step and is proved to compute just that, `LogVerifier` is the verifier loop together with
a declarative account of what it accepts, and `Genesis` and `GenesisDocument` prove that the created entry is what
the verifier expects, and `Lifecycle` proves that every run of the commands produces logs the verifier accepts, with
the key store in step. `LogSecurity` proves what acceptance is worth: self-certification, tamper evidence, finality.
`Creation`, `Loading`, `Rotation` and `ChangeErrors` say, without the functions of `Producer`, what a created DID
consists of, which logs are changed, what a rotation does to each key, and why a command fails.
In between lie the string work (`Text`, `Scid`, `Json`), the codecs (`LogEntry`, `EntryEdits`, `Jsonl`, `DidDoc`,
`PublicKeys`, `Proof`), the name mappings (`Did`, `DidUrl`) and the key store (`KeyStore`); `EntryForms` and
`DocumentForms` say which JSON values the parsers accept.

**Beside it.** `StatusLists` is the in-place bit packing of status lists against the plain sequence of slots.
`TrustStatements` is the SD-JWT decoder with its disclosure loop. `TrustVerify` is the trust check with its two caches
against a version without any. `StatementFields`, `IssuerKeys` and `Reports` say what a statement, a signature and a
report stand for down to the members of the tokens and documents, and `TrustAnchor` whose signature a positive verdict
is.

**Libraries.** SHA-256, base58, base64, Ed25519, P-256, zlib, JSON text and the RFC 3339 clock are
records of functions (`Crypto`, `JsonText`, `TimeText`, `Wire`, `Tool`, `Env`) of which only round trips,
alphabets, lengths and "a signature verifies under its key" are assumed. Collision freeness is not built
in: the two theorems that need it assume it of the values that the logs at hand hash. The network, the
files on disk and the clock reading are parameters.

`Instance` gives one concrete choice of all of them and proves it lawful, so the laws can be met; the inputs in
`Examples` and `TrustAnchor` use it.

## What the proofs brought out

- A rotation keeps a log acceptable exactly when the newest snapshot's key is in force
  (`LogGrowth.RotateIsExact`). It is in every active world. It is not after a deactivation, for which `rotate`
  does not look: there it goes through all the same and writes a text the verifier rejects
  (`Lifecycle.RotateAfterDeactivateBreaksTheLog`, `Examples.RotatedAfterDeactivation`). And it is not once the
  key store is past its limit and the authorized key has changed (`Lifecycle.RotationPastLimit`), which a create and
  10000 rotations reach (`Examples.RotatedPastTheLimit`).
- A log is verified before it is changed, but only if its first entry is did:tdw: behind an entry of another format
  `rotate` goes through on a log that no verifier accepts (`Loading.RotateStartsAccepted`,
  `Rotation.RotatedBehindForeignEntry`, `Examples.RotatedBehindForeignLine`).
- Snapshot numbers have four digits. After 9999 the key store no longer sees the newest snapshot and the next
  rotation overwrites it (`KeyStore.AddVersionInLockstep`, `KeyStore.OverwrittenPastLimit`).
- A DID that ends in white space is stored but not found again, because the stored copy is trimmed before it is
  compared (`Lifecycle.RotateOutcome`, `Examples.TrailingBlankIsNotFound`).
- `trust verify` compares a statement's `iss` with the expected issuer but checks its signature under the DID that
  its `kid` names. A positive verdict is the issuer's signature exactly when the two agree
  (`TrustAnchor.VerdictIsTheIssuers`, `TrustAnchor.OtherSignerIsTrusted`, `TrustAnchor.ForeignStatementIsTrusted`).
- One statement that names the expected issuer and whose signer or status list does not resolve fails the whole of
  `trust verify`, whatever the other tokens are (`TrustVerify.AnswerExists`).
- A genesis entry with a literal `{SCID}` in it has the same preliminary form as one with the SCID in that place, so
  one DID can have two accepted genesis entries (`Examples.TwoGenesisEntries`). Next to an entry without the literal,
  another one agrees exactly when it is free of it too (`LogSecurity.SelfCertificationIsExact`).
- The substitution can be undone because every placeholder follows a character outside the base58 alphabet; without
  that it can fail (`Scid.BorderIsNeeded`).
- The name mappings agree only for some URLs and DIDs. `DidUrl.ComponentsOfLogUrl`, `DidUrl.CreateAndRotateAgree`,
  `Did.ParseOfPrint` and `Did.PrintOfParse` give the exact conditions, and `Examples` an input outside each of them.
- Reserved status values 0, 1 and 2 read back under their names (`StatusLists.EncodedValueReadsBack`).
- A disclosure put behind two or more trailing tildes fails a statement, because the empty part between them is
  decoded too (`TrustStatements.BehindTrailingTildes`).

Where comment and code differ, the model follows the code. The comment on `verify_loaded_log`
(swiyu-didtool/src/cmd/didlog.rs:160-168) speaks of the DID in the genesis state; the code takes the newest full
document. The comment on `VerifyContext` (swiyu-didtool/src/cmd/trust/verify.rs:104-106) says both signature checks
resolve their `kid` against the issuer DID; that holds for status lists only, as said above.

## Model

| member | source | states |
|---|---|---|
| `Lifecycle.LifecycleIsSound` | swiyu-didtool/src/cmd/did/rotate.rs:98-247 | Whole runs: a successful create, fewer than 9999 rotations and at most one deactivation, each of which may also fail, end in a log text that loads again for the created DID, is accepted by the verifier, has strictly ascending times, carries in each entry one proof that names the entry and its time, and is either active or deactivated with every snapshot belonging to its entry; the directories of all other DIDs are as before |
| `Lifecycle.CreateIsSound` | swiyu-didtool/src/cmd/did/create.rs:103-179 | A successful create from a URL without the literal placeholder, with at most one colon in its host and a SCID not already in the preliminary entry, gives a one-entry log that is accepted for the created DID and in step with the key store, whose other directories stay |
| `Lifecycle.RotateIsSound` | swiyu-didtool/src/cmd/did/rotate.rs:111-211 | From any active world a successful rotation gives an active world again: one entry more, the old ones a prefix of the new; for every k snapshot k holds the one key in force after entry k and the keys of its document (also when keys were kept or imported again); no older snapshot and no other directory changed |
| `Lifecycle.RotateOutcome` | swiyu-didtool/src/cmd/did/rotate.rs:98-211 | On any sound log with stored keys, deactivated or not: a rotation fails exactly for a bad plan, a key file that cannot be read, or a DID with white space at its end, and otherwise yields the successor text and the next snapshot; what plan and staging are is `Rotation.StagingIsExact` |
| `Rotation.RotationGoesThrough` | swiyu-didtool/src/cmd/did/rotate.rs:98-211 | An active world is rotated exactly if its DID does not end in white space and the options change something, name no role that also has a key file, and every key file can be read |
| `Rotation.RotationKeys` | swiyu-didtool/src/cmd/did/rotate.rs:129-150 | After a rotation of an active world below 9999 entries the next snapshot holds, role by role, the generated key where the role or all roles are named, the imported key where a file is given, and the key of the snapshot before otherwise; the entry announces updateKeys exactly if the authorized multikey changed, and no other parameter |
| `Rotation.StagingIsExact` | swiyu-didtool/src/cmd/did/rotate.rs:289-387 | Plan and staging together succeed exactly for those options and give exactly those keys |
| `Rotation.RotateAppends` | swiyu-didtool/src/cmd/did/rotate.rs:160-194 | Every rotation that goes through, on whatever log, appends one did:tdw entry whose number is its position in 32 bits and whose hash covers the versionId before it, its time, its parameters and its state |
| `Rotation.DeactivateAppends` | swiyu-didtool/src/cmd/did/deactivate.rs:121-160 | The same for every deactivation; its entry repeats the state and says deactivated with an empty key list and nothing else |
| `ChangeErrors.RotateErrorIsExact` | swiyu-didtool/src/cmd/did/rotate.rs:98-150 | A rotation fails exactly for the first of: a role with a file that is named too, nothing to do, a log that does not load, an empty log, another format at its end, no DID, an unreadable DID, no directory, another DID in it, no snapshot, a key file that cannot be read |
| `ChangeErrors.DeactivateErrorIsExact` | swiyu-didtool/src/cmd/did/deactivate.rs:86-114 | The same for a deactivation, with the deactivated flag and a patch at the end of the log among the reasons |
| `Lifecycle.DeactivateOutcome` | swiyu-didtool/src/cmd/did/deactivate.rs:86-167 | On any sound log with stored keys a deactivation fails exactly for a last entry that says deactivated or a DID with white space at its end |
| `Lifecycle.DeactivateIsSound` | swiyu-didtool/src/cmd/did/deactivate.rs:123-167 | A successful deactivation of an active world adds one entry, is accepted for the same DID, keeps the document, and leaves the deactivated state with an empty key list |
| `Lifecycle.RotationsStayActive` | swiyu-didtool/src/cmd/did/rotate.rs:98-247 | Any number of rotations, failed ones included, keeps the world active, keeps all entries, all older snapshots and all other directories, and adds at most one entry per command |
| `Lifecycle.RotationsGoThrough` | swiyu-didtool/src/cmd/did/rotate.rs:98-247 | Rotations that generate all keys, from an active world whose DID does not end in white space, all go through up to 9999 entries, add exactly one entry each, and leave the last generated keys as the newest snapshot |
| `LogGrowth.RotateIsExact` | swiyu-didtool/src/cmd/did/rotate.rs:111-211 | For every accepted log and every rotation that goes through, whatever the state of the key store: one entry is added, and the new log is accepted exactly when the key of the newest snapshot the store sees is in force |
| `LogGrowth.DeactivateIsExact` | swiyu-didtool/src/cmd/did/deactivate.rs:86-167 | The same exact condition for every deactivation that goes through |
| `LogGrowth.SuccessorAccepted` | swiyu-didtool/src/cmd/did/rotate.rs:156-194 | An entry built from the previous versionId for the same document id extends an accepted log to an accepted log exactly when its signer's key is in force |
| `LogGrowth.UpdatedTextParses` | swiyu-didtool/src/cmd/did/rotate.rs:194-196 | The written text parses to the old entries and the typed successor |
| `Lifecycle.RotationPastLimit` | swiyu-didtool/src/keystore.rs:272-304 | At 9999 snapshots: the rotation there is still accepted, and the next one that goes through is accepted exactly if the first did not change the authorized key |
| `Lifecycle.RotateAllPastLimit` | swiyu-didtool/src/keystore.rs:272-304 | With all keys generated anew both rotations past the limit go through, and the second is accepted exactly if the first generated the authorized key that snapshot 9999 holds |
| `Examples.RotatedPastTheLimit` | swiyu-didtool/src/keystore.rs:165-178 | Input: create at https://a/b/did.jsonl and 9998 rotations reach 9999 entries; the rotation to another key is accepted there, and the rotation after it goes through and its log is rejected |
| `Lifecycle.CurrentKeysStored` | swiyu-didtool/src/keystore.rs:449-471 | For an accepted log the lookup finds the stored keys exactly when trimming leaves the DID alone, and otherwise reports a mismatch |
| `Lifecycle.LaterTime` | swiyu-didtool/src/cmd/did/rotate.rs:389-404 | The time of a new entry keeps the times of the log strictly ascending |
| `Lifecycle.LoadsItself` | swiyu-didtool/src/cmd/didlog.rs:169-193 | An accepted log with a re-parsable DID loads without an explicit target and with its own DID as the target |
| `Loading.LoadIsExact` | swiyu-didtool/src/cmd/didlog.rs:169-193 | A did:tdw log loads exactly when it is accepted for the DID asked for, or without one for the DID it announces; a log without a readable DID loads unverified; otherwise the error is the verifier's |
| `Loading.RotateStartsAccepted` | swiyu-didtool/src/cmd/didlog.rs:169-193 | Every rotation that goes through started from a log accepted for its announced DID, exactly if its first entry is did:tdw |
| `Loading.DeactivateStartsAccepted` | swiyu-didtool/src/cmd/didlog.rs:169-193 | And so did every deactivation |
| `Rotation.RotatedBehindForeignEntry` | swiyu-didtool/src/cmd/didlog.rs:169-177 | Behind an entry of another format every active log that could be rotated still is, although no verifier accepts it |
| `Examples.RotatedBehindForeignLine` | swiyu-didtool/src/cmd/didlog.rs:169-177 | Input: a created log with a did:webvh line in front of it |
| `Lifecycle.SecondDeactivateRejected` | swiyu-didtool/src/cmd/did/deactivate.rs:95-97 | A deactivated log cannot be deactivated again |
| `Lifecycle.RotateAfterDeactivateBreaksTheLog` | swiyu-didtool/src/cmd/did/rotate.rs:111-119 | A rotation on a deactivated log succeeds or fails just as on an active one, and every text it writes parses, with one entry more, and is rejected by the verifier |
| `Lifecycle.DeactivatedLogCanBeRotated` | swiyu-didtool/src/cmd/did/rotate.rs:98-119 | On every deactivated log whose DID has no white space at its end, generating all keys anew goes through |
| `Examples.RotatedAfterDeactivation` | swiyu-didtool/src/cmd/did/rotate.rs:111-119 | Input: at https://a/b/did.jsonl create, deactivate and rotate all go through; the verifier accepts the deactivated log and rejects the rotated one |
| `Examples.TrailingBlankIsNotFound` | swiyu-didtool/src/keystore.rs:449-471 | Input: at https://a/b /did.jsonl create goes through and the next rotate reports a key store mismatch |
| `Examples.CreatedAt` | swiyu-didtool/src/cmd/did/create.rs:103-179 | Create goes through and leaves an active world for every simple path, so the hypotheses of the lifecycle theorems can be met |
| `Genesis.CreatedEntryIsAccepted` | swiyu-didtool/src/cmd/did/create.rs:103-171 | The genesis entry create writes parses, and the log of just this entry is accepted for the created DID with the authorized key as only update key |
| `Genesis.CreatedShape` | swiyu-didtool/src/cmd/did/create.rs:119-171 | What create substitutes, hashes and signs, spelled out: the SCID in the parameters and the document, the versionId from the hash of the substituted entry, the proof over the substituted document |
| `Creation.CreatedKeys` | swiyu-didtool/src/cmd/did/create.rs:276-330 | A created DID gets a directory that was not there, with its text and one snapshot, which holds for each role the key of its file and a generated key otherwise; two files for the document hold different keys |
| `Creation.PreparedIsExact` | swiyu-didtool/src/cmd/did/create.rs:276-330 | The keys are prepared exactly so |
| `Creation.CreateErrorIsExact` | swiyu-didtool/src/cmd/did/create.rs:89-173 | A create fails exactly for the first of: the URL, a key file that cannot be read, two identical keys, domain or path, a directory that is there already |
| `Creation.UrlErrorIsExact` | swiyu-didtool/src/cmd/did/create.rs:224-237 | A URL is refused exactly without https:// or without a host |
| `Creation.DocumentIsExact` | swiyu-core/src/diddoc/mod.rs:165-202 | The document that create and rotate print, member by member: the authentication key and the assertion key, each as JWK under its own key id and referenced for its own purpose |
| `Creation.ActiveDocument` | swiyu-didtool/src/cmd/did/rotate.rs:141-145 | The newest document of an active world lists the public keys of the newest snapshot in this way |
| `Creation.ParametersAreExact` | swiyu-core/src/didlog/mod.rs:405-446 | The genesis parameters of both formats, member by member; only did:tdw has portable |
| `Creation.WebVhShape` | swiyu-didtool/src/cmd/did/create.rs:103-171 | What create writes for did:webvh, spelled out: the same steps on an object, and a proof made for assertion |
| `GenesisDocument.SubstitutedDocument` | swiyu-didtool/src/cmd/did/create.rs:129-133 | Substituting the SCID into the document of the placeholder DID gives the document of the created DID with the same keys |
| `Producer.SignedProofNamesEntry` | swiyu-didtool/src/cmd/did/rotate.rs:174-190 | The proof of a new entry parses, is made for authentication, and has the versionId as challenge and the entry time as creation time |
| `Json.FreeValueKept` | swiyu-didtool/src/cmd/did/create.rs:131-133 | A value without the pattern is left alone by the substitution |
| `Genesis.ComponentsAreFree` | swiyu-didtool/src/cmd/did/create.rs:223-258 | A URL without the literal placeholder gives domain and path without it, even after the port escape and the joining of segments |
| `Genesis.BorderedDocument` | swiyu-core/src/diddoc/mod.rs:165-202 | In the genesis document of a placeholder DID every placeholder follows a character no SCID contains |
| `Genesis.SignedBySnapshot` | swiyu-didtool/src/cmd/did/rotate.rs:174-190 | A proof made with a snapshot's key is accepted by the verifier exactly where that key's multikey is authorized |
| `GenesisTexts.DocumentTexts` | swiyu-core/src/diddoc/mod.rs:165-202 | Every text of a genesis document is one of its member names, constants, key coordinates, the DID, or the DID with a key fragment |
| `Genesis.SubstitutedParameters` | swiyu-core/src/didlog/mod.rs:405-446 | Substituting in the printed genesis parameters gives the printed parameters with the SCID |
| `DidTool.CmdCreate` | swiyu-didtool/src/cmd/did/create.rs:103-179 | The command with its in-place edits of the entry computes the create function on values and commits exactly one first snapshot, or leaves the key store alone on an error; the log file is written as soon as the entry is built, also when the key store then refuses the DID |
| `DidTool.LoadLog` | swiyu-didtool/src/cmd/didlog.rs:152-193 | Parsing and then verification against the target or the announced DID, did:webvh logs and logs without a DID passing unverified |
| `DidTool.PlanRotation` | swiyu-didtool/src/cmd/did/rotate.rs:289-340 | The loop over the roles and the three key files give the plan: a role both generated and imported is a conflict, nothing to do is an error |
| `DidTool.FindCurrentKeys` | swiyu-didtool/src/cmd/did/rotate.rs:123-142 | DID of the log, its key store entry and the keys of the latest snapshot, with the errors in the order of the code |
| `DidTool.CmdRotate` | swiyu-didtool/src/cmd/did/rotate.rs:99-211 | The command computes the rotate function on values and adds exactly one snapshot, or changes nothing and reports its error |
| `DidTool.CmdDeactivate` | swiyu-didtool/src/cmd/did/deactivate.rs:86-167 | The command computes the deactivate function on values and leaves the key store alone |
| `DidTool.RawParameters` | swiyu-didtool/src/cmd/did/rotate.rs:151-156 | The hand-built parameter objects of rotate and deactivate are the printed forms of typed parameters |
| `LogVerifier.VerifyLog` | swiyu-core/src/didlog/verify.rs:161-215 | The loop carrying the keys and the previous versionId forward returns the result of the recursive specification |
| `LogVerifier.VerifierIsExact` | swiyu-core/src/didlog/verify.rs:161-311 | Acceptance is equivalent to the declarative conditions on every entry; otherwise the error is that of the first failing check of the first failing entry, format errors of any entry first, and names the position and the values found there |
| `LogVerifier.EntryResultIsExact` | swiyu-core/src/didlog/verify.rs:217-311 | One entry: no error exactly when its six conditions hold, and an error names the first of them that fails |
| `LogVerifier.ProofIsExact` | swiyu-core/src/didlog/verify.rs:313-390 | The first proof is accepted exactly when it is a signature, over its own options and the document, by an authorized multikey named in a did:key verification method |
| `LogVerifier.DidKeyVm` | swiyu-core/src/didlog/verify.rs:392-399 | Exactly the method ids did:key:m#m with m free of # are understood |
| `LogVerifier.SeqCheckIsExact` | swiyu-core/src/didlog/verify.rs:246-258 | The versionId check accepts exactly the 1-based position in decimal (in 32 bits), a dash and the hash |
| `LogVerifier.AcceptedNumbers` | swiyu-core/src/didlog/verify.rs:184-251 | Entry i of an accepted log carries the number i + 1, followed by its hash |
| `LogVerifier.NumberIsPosition` | swiyu-core/src/didlog/verify.rs:184-184 | The number the verifier expects and the commands write is the 1-based position, in 32 bits |
| `LogVerifier.HashedForm` | swiyu-core/src/didlog/verify.rs:254-273 | What is hashed is the slot, the time, the parameters and the state, without the proofs |
| `LogVerifier.ErrorIsReported` | swiyu-core/src/didlog/verify.rs:218-345 | Every error of an entry names its position and the values found and expected there |
| `LogVerifier.KeysAfter` | swiyu-core/src/didlog/verify.rs:180-212 | The keys in force after an entry are the ones it announces, or else the ones before it |
| `LogVerifier.AcceptedPrefix` | swiyu-core/src/didlog/verify.rs:161-215 | Every non-empty prefix of an accepted log is accepted |
| `LogVerifier.AcceptedAppend` | swiyu-core/src/didlog/verify.rs:161-215 | A log plus one entry is accepted exactly when the new entry meets its own conditions |
| `LogVerifier.UnsupportedIsFirst` | swiyu-core/src/didlog/verify.rs:172-178 | The format scan reports the first entry that is not did:tdw 0.3 |
| `LogSecurity.SelfCertification` | swiyu-core/src/didlog/verify.rs:286-306 | Two logs accepted for one DID, whose genesis entries hold no literal placeholder, start with the same versionId, time, parameters and document, if the two preliminary forms do not collide |
| `LogSecurity.SelfCertificationIsExact` | swiyu-core/src/didlog/verify.rs:286-306 | Next to an accepted genesis entry without the literal placeholder, another one accepted for the same DID has the same content exactly when it has no literal placeholder either, if the two preliminary forms do not collide |
| `Examples.TwoGenesisEntries` | swiyu-core/src/didlog/verify.rs:286-306 | Why that needs placeholder-free entries: for every domain and path one DID has two accepted one-entry logs, without collision, whose documents differ in a text that is the SCID in one and the literal placeholder in the other |
| `Examples.TwoGenesisLogs` | swiyu-core/src/didlog/verify.rs:286-306 | Input: two such logs |
| `LogSecurity.PlaceholderIsAmbiguous` | swiyu-core/src/didlog/verify.rs:296-299 | The reason in one value: a literal placeholder and the SCID have the same preliminary form |
| `LogSecurity.TamperEvidence` | swiyu-core/src/didlog/verify.rs:247-286 | Two logs accepted for one DID that end in the same versionId have equal length, agree entry by entry on all hashed content and on the keys in force, if the values they hash do not collide |
| `LogSecurity.VersionIdFixesEntry` | swiyu-core/src/didlog/verify.rs:247-286 | Equal versionIds of accepted entries fix their position, content and predecessor |
| `LogSecurity.NextEntryNeedsAKey` | swiyu-core/src/didlog/verify.rs:180-212 | In an accepted log only the last entry may announce an empty key list |
| `LogSecurity.EmptyKeysAreFinal` | swiyu-core/src/didlog/verify.rs:180-212 | After an entry that announces no keys no extension, however signed, is accepted |
| `LogGrowth.DeactivationIsFinal` | swiyu-didtool/src/cmd/did/deactivate.rs:123-140 | No log that continues past a deactivation entry, with whatever entries and however signed, is accepted |
| `LogSecurity.LatestKeysAreEffectiveKeys` | swiyu-didtool/src/cmd/pop/verify.rs:366-374 | For every log the backward search for update keys finds the keys the verifier carries forward |
| `LogSecurity.CurrentDid` | swiyu-didtool/src/cmd/didlog.rs:342-351 | The early-return loop finds the id of the newest full document that has one |
| `LogSecurity.CurrentDidIsNewest` | swiyu-didtool/src/cmd/didlog.rs:342-351 | On every log it is the id of the newest entry with a full document that has one, and none exactly if no entry has |
| `LogSecurity.CurrentDidIsTheVerifiedDid` | swiyu-didtool/src/cmd/didlog.rs:342-351 | For every accepted log it is the DID the log was verified for |
| `Scid.SubstitutionUndone` | swiyu-core/src/didlog/verify.rs:289-299 | Replacing every placeholder by the SCID and every SCID by the placeholder gives the text back, for every text without the SCID whose placeholders follow characters outside the base58 alphabet, also for SCIDs that overlap themselves |
| `Scid.AbstractionUndone` | swiyu-core/src/didlog/verify.rs:296-296 | On placeholder-free texts the replacement of a SCID by the placeholder can be undone |
| `Scid.BorderIsNeeded` | swiyu-didtool/src/cmd/did/create.rs:131-133 | A concrete text and SCID for which the substitution is not undone, so the border condition is needed |
| `Scid.ValueSubstitutionUndone` | swiyu-core/src/didlog/verify.rs:289-299 | The same for whole JSON values, member names included |
| `Scid.ValueAbstractionInjective` | swiyu-core/src/didlog/verify.rs:289-299 | Placeholder-free values with equal preliminary forms are equal |
| `Json.ReplaceStringsBack` | swiyu-didtool/src/cmd/did/create.rs:131-133 | A substitution that is undone on every text of a value is undone on the value, also where renamed members could clash |
| `Json.ReplaceInMembers` | swiyu-didtool/src/cmd/did/create.rs:131-133 | Substitution leaves member names alone when none holds the pattern |
| `Json.SurvivorIsLast` | swiyu-didtool/src/cmd/did/create.rs:131-133 | Of the members that get one name by the substitution the last in code point order survives |
| `Crypto.HashDeterminesInput` | swiyu-core/src/didlog/scid.rs:138-160 | Equal entry hashes come from equal values, among values whose SHA-256 does not collide |
| `Crypto.MultikeyRoundTrip` | swiyu-core/src/didlog/verify.rs:401-428 | Decoding a printed Ed25519 multikey gives the key |
| `Crypto.MultikeyIsExact` | swiyu-core/src/didlog/verify.rs:401-428 | Exactly the base58 texts of ed 01 and 32 key bytes, with a z in front, are multikeys |
| `Crypto.EntryHashBytes` | swiyu-core/src/didlog/scid.rs:138-160 | The bytes of an entry hash are the multihash header 12 20 and the digest |
| `LogEntry.ParsePrintedParameters` | swiyu-core/src/didlog/mod.rs:208-293 | Printing and parsing parameters only fills portable with false on did:tdw genesis parameters and drops did:tdw watchers |
| `LogEntry.PrintParameters` | swiyu-core/src/didlog/mod.rs:243-293 | The printer that inserts one member after the other gives the member-wise specification, with portable explicit on did:tdw genesis parameters only |
| `LogEntry.NormalisedPrintsTheSame` | swiyu-core/src/didlog/mod.rs:243-293 | Normalised parameters print as the original ones, so hashes over re-serialised entries are stable |
| `LogEntry.ParsePrintedEntry` | swiyu-core/src/didlog/mod.rs:582-720 | Printing and parsing an entry of either format only normalises its parameters and keeps the printed form |
| `LogEntry.ParsedEntryIsStable` | swiyu-core/src/didlog/mod.rs:706-720 | Every entry that parses has parameters of its own format and meets the round trip |
| `EntryForms.EntryIsExact` | swiyu-core/src/didlog/mod.rs:582-720 | Exactly the arrays of five elements and the objects of these forms are log entries; absent members are absent fields, and a member of another type is an error |
| `EntryForms.ParametersAreExact` | swiyu-core/src/didlog/mod.rs:208-241 | The same for parameters: unknown members do not count, nor do watchers on did:tdw |
| `EntryEdits.ValueCell.StripProofSlot` | swiyu-core/src/didlog/entry_edits.rs:28-41 | In place: the last element of an array entry, or the proof member of an object entry, is removed; anything else stays |
| `EntryEdits.ValueCell.SetVersionId` | swiyu-core/src/didlog/entry_edits.rs:46-61 | In place: the first element, or the versionId member, is replaced |
| `EntryEdits.ValueCell.AppendProof` | swiyu-core/src/didlog/entry_edits.rs:66-81 | In place: a one-proof array is appended, or set as the proof member |
| `EntryEdits.EditsCommuteWithPrinting` | swiyu-core/src/didlog/entry_edits.rs:28-81 | The three edits of a printed entry give the printed form of the entry with that versionId and that one proof, in both formats |
| `Jsonl.TryFromJsonl` | swiyu-core/src/didlog/mod.rs:752-775 | The parsing loop skips blank lines and reports the first bad line by number |
| `Jsonl.ErrorIsFirstBadLine` | swiyu-core/src/didlog/mod.rs:752-775 | A log parses exactly when no line is bad, and otherwise the error is that of the first bad line under its number counted from one, blank lines included |
| `Jsonl.RawLinesMatchEntries` | swiyu-didtool/src/cmd/didlog.rs:195-200 | For every text that parses, the kept raw lines match the entries one to one despite blank lines, CRLF and padding |
| `Text.LineBreaks` | swiyu-didtool/src/cmd/didlog.rs:195-200 | A line ends at a newline or a carriage return and newline; every other character belongs to it |
| `Jsonl.BuildUpdatedLog` | swiyu-didtool/src/cmd/did/rotate.rs:411-422 | The loop gives the raw lines and the new one, each ended by one newline |
| `Jsonl.AppendPreservesLog` | swiyu-didtool/src/cmd/did/rotate.rs:411-422 | The updated text parses to the old entries and exactly the new one |
| `Jsonl.PrintedEntryParses` | swiyu-core/src/didlog/mod.rs:683-720 | A printed entry is a line that parses to the entry, up to its normalised parameters |
| `DidDoc.ParsePrintedDoc` | swiyu-core/src/diddoc/mod.rs:282-378 | Printing and parsing is the identity for every DID document |
| `DocumentForms.DocumentIsExact` | swiyu-core/src/diddoc/mod.rs:340-378 | Exactly the objects of this form are DID documents, with verification methods, references and services read element by element |
| `DocumentForms.MethodIsExact` | swiyu-core/src/diddoc/mod.rs:522-544 | The same for verification methods; a JWK wins over a multibase key |
| `DocumentForms.JwkIsExact` | swiyu-core/src/diddoc/public_keys.rs:543-561 | The same for JWKs of the three key types with their options |
| `DidDoc.PrintDoc` | swiyu-core/src/diddoc/mod.rs:282-334 | The printer that inserts one member after the other gives the member-wise specification, empty lists left out |
| `DidDoc.ParsePrintedVm` | swiyu-core/src/diddoc/mod.rs:522-544 | The same for verification methods with JWK or multibase keys |
| `DidDoc.ParsePrintedStringOrArray` | swiyu-core/src/diddoc/mod.rs:420-487 | A single string stands for a one-element array and parses back to it |
| `PublicKeys.ParsePrintedJwk` | swiyu-core/src/diddoc/public_keys.rs:512-561 | The same for EC, OKP and RSA keys with their optional members |
| `PublicKeys.PrintJwk` | swiyu-core/src/diddoc/public_keys.rs:174-521 | The printers of the three key types give the member-wise specification |
| `PublicKeys.InsertOptionalFields` | swiyu-core/src/diddoc/public_keys.rs:683-704 | Each of the four options that is set appears under its name with its value; every other member stays as it was |
| `Proof.ParsePrintedProof` | swiyu-core/src/proof.rs:193-243 | Printing and parsing a proof is the identity |
| `Proof.ProofIsExact` | swiyu-core/src/proof.rs:208-243 | Exactly the eddsa-jcs-2022 proofs for one of the two purposes parse |
| `Proof.OptionsOfPrintedProof` | swiyu-core/src/didlog/verify.rs:351-365 | Removing proofValue from a printed proof gives back exactly the options that were signed |
| `Did.PrintOfParse` | swiyu-core/src/did/mod.rs:188-233 | A parsed DID is valid, and printing it restores the text exactly when its SCID was not left empty |
| `Did.ParseIsExact` | swiyu-core/src/did/mod.rs:188-233 | Exactly the texts of valid DIDs with colon-free SCID and domain parse, an empty SCID standing for none |
| `Did.ValidityIsExact` | swiyu-core/src/did/mod.rs:74-80 | Domains are dot-separated and paths colon-separated: not empty, no separator at an end, no two in a row |
| `Did.SuffixErrorIsExact` | swiyu-core/src/did/mod.rs:188-233 | What is wrong with the text behind the prefix: a missing or invalid domain, then an invalid path |
| `Did.ParseOfPrint` | swiyu-core/src/did/mod.rs:177-233 | A printed valid DID parses back to itself exactly when its SCID is present, not empty and colon-free and its domain is colon-free; colons in the path stay in the path |
| `Examples.EmptyScidIsPrintedAsPlaceholder` | swiyu-core/src/did/mod.rs:188-233 | Input: did:tdw::a parses, and prints as did:tdw:{SCID}:a |
| `Examples.ColonInScidShiftsTheParts` | swiyu-core/src/did/mod.rs:177-233 | Input: a valid DID with SCID s:t and domain a prints to a text that parses to SCID s, domain t and path a |
| `DidUrl.ComponentsOfLogUrl` | swiyu-didtool/src/cmd/did/create.rs:223-258 | The components of the log URL of a valid DID are its domain and path exactly under a checkable condition on slashes, port escapes and .well-known |
| `Examples.WellKnownPathIsLost` | swiyu-didtool/src/cmd/did/create.rs:223-258 | Input: the path .well-known of a valid DID does not come back from its log URL |
| `DidUrl.ParseUrl` | swiyu-didtool/src/cmd/did/create.rs:223-258 | The code that pops the file name off the segments computes the mapping of the round trip `DidUrl.ComponentsOfLogUrl` |
| `DidUrl.CreateAndRotateAgree` | swiyu-registries/src/identifier/allocate.rs:113-124 | The identifier taken from an https URL equals the one rotate takes from the DID built from it exactly under a checkable condition on its path segments |
| `Examples.SlashBehindTheFileName` | swiyu-registries/src/identifier/allocate.rs:113-124 | Input: for https://a/b/did.jsonl/ the identifier taken from the URL is did.jsonl, and the one taken from the DID built from it is b |
| `DidUrl.RegistryIdentifierOf` | swiyu-didtool/src/cmd/did/rotate.rs:265-270 | The registry identifier of a DID is the last colon-separated piece of its last path segment |
| `KeyStore.KeyStore.Commit` | swiyu-didtool/src/keystore.rs:393-446 | A new DID gets its directory with snapshot 0001; an existing one is an error and nothing changes |
| `KeyStore.KeyStore.FindDid` | swiyu-didtool/src/keystore.rs:449-471 | Nothing for an unknown hash, a mismatch when the trimmed stored DID differs, the entry otherwise |
| `KeyStore.KeyStore.AddVersion` | swiyu-didtool/src/keystore.rs:272-304 | Exactly one snapshot is written, under the number after the latest, and the rest of the store stays |
| `KeyStore.AllVersions` | swiyu-didtool/src/keystore.rs:182-200 | The recognised snapshot numbers in strictly ascending order, whatever the directory order |
| `KeyStore.SnapshotNameParses` | swiyu-didtool/src/keystore.rs:313-319 | A padded number is recognised exactly below 10000 and reads back as itself |
| `KeyStore.AddVersionInLockstep` | swiyu-didtool/src/keystore.rs:272-304 | Adding a version to snapshots 1..n gives 1..n+1 exactly for n below 9999, and never changes an older snapshot there |
| `KeyStore.OverwrittenPastLimit` | swiyu-didtool/src/keystore.rs:165-178 | Past 9999 the store does not see the new snapshot and the next rotation overwrites it |
| `KeyStore.AscendingUpTo` | swiyu-didtool/src/keystore.rs:182-200 | In lockstep the listed versions are 1, 2, .., n |
| `VersionTime.StrictlyLater` | swiyu-didtool/src/cmd/did/rotate.rs:389-404 | A computed versionTime is strictly later than a readable predecessor, sub-second digits included |
| `VersionTime.TimeOfEntry` | swiyu-didtool/src/cmd/did/rotate.rs:392-408 | The time is the last whole second up to five seconds ago, but at least a second after a readable predecessor |
| `StatusLists.StatusList.New` | swiyu-core/src/statuslist/mod.rs:269-283 | An all-zero list of exactly the requested capacity; other widths, overflow and partial bytes are errors |
| `StatusLists.StatusList.FromRaw` | swiyu-core/src/statuslist/mod.rs:291-296 | Any bytes are taken as they are for widths 1 and 2 |
| `StatusLists.StatusList.TryFrom` | swiyu-core/src/statuslist/mod.rs:392-420 | Decoding of the list object with the default width and the errors in the order of the code |
| `StatusLists.StatusList.Len` | swiyu-core/src/statuslist/mod.rs:311-314 | The length is the number of slots of the bit string |
| `StatusLists.StatusList.ValueAt` | swiyu-core/src/statuslist/mod.rs:322-351 | Reads fail exactly past the end and otherwise show the slot of the reference bit string |
| `StatusLists.StatusList.SetAt` | swiyu-core/src/statuslist/mod.rs:359-384 | In place: on success exactly the one slot takes the value and other bytes stay; on an error, value before index, no byte changes |
| `StatusLists.WriteSlot` | swiyu-core/src/statuslist/mod.rs:363-380 | The masked write of one byte is the update of one slot of the sequence |
| `StatusLists.ReadSlot` | swiyu-core/src/statuslist/mod.rs:323-348 | The shifted and masked read of one byte is the slot of the bit string |
| `StatusLists.SlotsDetermineBytes` | swiyu-core/src/statuslist/mod.rs:257-260 | Lists of one length with equal slots have equal bytes, so the slot view loses nothing |
| `StatusLists.ApplyWrites` | swiyu-core/src/statuslist/mod.rs:322-384 | Any run of writes on a list object: the slots are those of the run, each write reports its own outcome, and afterwards every slot reads the last value successfully written to it or what it read before |
| `StatusLists.LastWriteIsRead` | swiyu-core/src/statuslist/mod.rs:359-384 | After any run of writes a slot reads as the last value successfully written to it, and as exactly that value unless it was a Reserved spelling of 0, 1 or 2 |
| `StatusLists.UnwrittenSlotStays` | swiyu-core/src/statuslist/mod.rs:359-384 | After any run a slot without a successful write keeps its initial value |
| `StatusLists.EncodedValueReadsBack` | swiyu-core/src/statuslist/mod.rs:186-216 | A value that fits reads back as itself exactly when it is not a Reserved spelling of 0, 1 or 2 |
| `StatusLists.DecodedValueWritesBack` | swiyu-core/src/statuslist/mod.rs:186-216 | Every slot content encodes back to itself and a 1-bit list never shows Suspended |
| `StatusLists.ShownValue` | swiyu-core/src/statuslist/mod.rs:186-216 | Which number shows as which value: 2 is Suspended in 2-bit lists only |
| `StatusLists.EncodeIsExact` | swiyu-core/src/statuslist/mod.rs:186-216 | A value is encoded as its number exactly if the width is 1 or 2 and has room for it |
| `StatusLists.ParsePrintedList` | swiyu-core/src/statuslist/mod.rs:392-442 | A printed list parses back to the same width and bytes |
| `StatusLists.ListIsExact` | swiyu-core/src/statuslist/mod.rs:392-420 | Exactly the objects with a width of 1 or 2, or without one, which means 1, and a compressed bit string are lists |
| `StatusLists.ListErrorIsExact` | swiyu-core/src/statuslist/mod.rs:392-420 | The error of any other value is that of the first thing wrong with it |
| `StatusLists.ParsePrintedPointer` | swiyu-core/src/statuslist/mod.rs:132-170 | A printed pointer parses back to itself |
| `StatusLists.PointerIsExact` | swiyu-core/src/statuslist/mod.rs:132-160 | Exactly the objects with these three members are pointers |
| `TrustStatements.TryFromJwt` | swiyu-core/src/truststatement/mod.rs:129-292 | The decoder with its disclosure loop equals a fold over the authorised disclosures only, with the first malformed segment as its error |
| `StatementFields.StatementIsExact` | swiyu-core/src/truststatement/mod.rs:183-292 | Every field of a decoded statement: key id, algorithm, signed text and signature of the token; issuer, type, issue time, window and status of the payload; and each disclosed claim from the last segment that states it and whose SHA-256 is an element of the signed _sd array, absent exactly without such a segment |
| `StatementFields.StatementExists` | swiyu-core/src/truststatement/mod.rs:129-292 | A token decodes exactly when its three segments do, it has an issue time and no malformed status pointer, and every further segment is a JSON array |
| `StatementFields.HeadIsExact` | swiyu-core/src/truststatement/mod.rs:136-181 | The head of a token: header and payload of its first two segments, the signed text being these two as they stand |
| `StatementFields.StatementErrorIsExact` | swiyu-core/src/truststatement/mod.rs:129-292 | The error of any other token: that of its first bad segment, its first segment that is no array, or its payload |
| `TrustStatements.UnauthorisedDisclosureHasNoEffect` | swiyu-core/src/truststatement/mod.rs:183-250 | Inserting, after any part of any token, a non-empty segment that decodes to a JSON array and is not listed in _sd leaves every field and every error as it was |
| `TrustStatements.MalformedDisclosureFails` | swiyu-core/src/sd_jwt.rs:85-115 | Inserting a segment that is not base64url, not JSON or not an array fails the statement |
| `TrustStatements.LastDisclosureDecides` | swiyu-core/src/truststatement/mod.rs:224-246 | Each language name and the state actor flag is that of the last authorised disclosure that states it, and absent otherwise |
| `TrustStatements.BehindTrailingTildes` | swiyu-core/src/truststatement/mod.rs:129-133 | Behind the trailing tildes an unlisted disclosure is harmless exactly after the first of them, or if an empty segment decoded to an array; otherwise the empty part fails the statement |
| `TrustStatements.PartsOfInserted` | swiyu-core/src/truststatement/mod.rs:130-133 | Trailing tildes aside, the insertion adds one part and changes no other |
| `TrustVerify.CmdVerify` | swiyu-didtool/src/cmd/trust/verify.rs:36-91 | The command with shared growing caches gives the reports, outcome or error of checking every statement from nothing, and the requests recorded by the network are exactly one for each of a list of distinct purposes, an issuer DID or a status list URL, failures included; each purpose is named by a token or is the expected issuer, so that there are at most 1 + 2n requests for n tokens |
| `TrustVerify.AnswerExists` | swiyu-didtool/src/cmd/trust/verify.rs:36-91 | The command gives an answer exactly when registry, issuer, DID and token list are there and every single token decodes and can be checked: one statement whose signer or list does not resolve fails the whole command |
| `TrustVerify.ReportFailsExactly` | swiyu-didtool/src/cmd/trust/verify.rs:161-266 | A statement cannot be checked exactly when it names the issuer and its signer does not resolve, or its signature holds and its status list or slot is not there |
| `TrustVerify.VerifyContext.Ask` | swiyu-didtool/src/cmd/trust/verify.rs:275-283 | Every request is made for a purpose not asked for before |
| `TrustVerify.OutcomeIsExact` | swiyu-didtool/src/cmd/trust/verify.rs:50-90 | The entity is trusted exactly when some token decodes to a statement meeting the declarative conditions on issuer, signature, window and status |
| `TrustVerify.VerdictIsExact` | swiyu-didtool/src/cmd/trust/verify.rs:161-203 | A report is positive exactly for statements meeting those conditions, and such a statement never meets an error |
| `IssuerKeys.TrustworthyIsExact` | swiyu-didtool/src/cmd/trust/verify.rs:205-230 | The signature condition spelled out: 64 bytes that verify, over the signed text, under the P-256 key that the first method with the key id has in the newest document of the DID in front of the # |
| `IssuerKeys.IssuerDocIsNewest` | swiyu-didtool/src/cmd/trust/verify.rs:291-308 | The document of an issuer is that of the last entry of its log, however many come before it |
| `IssuerKeys.KeyIsExact` | swiyu-didtool/src/cmd/trust/verify.rs:314-331 | The key of a key id is that of the first verification method with that id, a P-256 JWK |
| `IssuerKeys.KidDidIsExact` | swiyu-didtool/src/cmd/trust/verify.rs:212-215 | The DID of a key id is what stands in front of its first # |
| `Reports.ReportIsExact` | swiyu-didtool/src/cmd/trust/verify.rs:161-266 | What each check of a report says, and which check is skipped behind a failed one |
| `Reports.ReportErrorIsExact` | swiyu-didtool/src/cmd/trust/verify.rs:205-450 | Which error ends the command for a statement that cannot be checked |
| `Reports.KeyErrorIsExact` | swiyu-didtool/src/cmd/trust/verify.rs:314-331 | Why a key id gives no key: no method, no JWK, a key that does not decode, or an Ed25519 key |
| `TrustAnchor.VerdictIsTheIssuers` | swiyu-didtool/src/cmd/trust/verify.rs:205-230 | A positive verdict is a signature under a key id of the expected issuer exactly when the kid names that issuer |
| `TrustAnchor.OtherSignerIsTrusted` | swiyu-didtool/src/cmd/trust/verify.rs:205-230 | Any statement that names the expected issuer but is signed by another resolvable DID, and is current and not revoked, gets a positive verdict |
| `TrustAnchor.OutcomeIsTheIssuers` | swiyu-didtool/src/cmd/trust/verify.rs:54-90 | The outcome rests on a statement the issuer signed exactly when it is positive and some trustworthy token names the issuer in its kid |
| `TrustAnchor.KeyIdsOfTheIssuer` | swiyu-didtool/src/cmd/trust/verify.rs:54-90 | If every decodable token names the issuer in its kid, trusted means that the issuer signed a trustworthy one |
| `TrustAnchor.ForeignStatementIsTrusted` | swiyu-didtool/src/cmd/trust/verify.rs:205-230 | Input: two DIDs with a key each; a statement that names the one and is signed by the other gets a positive verdict, although no key of the issuer's own document, under any key id, verifies its signature |
| `TrustAnchor.ForeignOutcomeIsTrusted` | swiyu-didtool/src/cmd/trust/verify.rs:54-90 | Input: a request whose outcome is trusted although no key of the issuer's own document verifies the signature of its only token |
| `TrustVerify.ListIsSignedByIssuer` | swiyu-didtool/src/cmd/trust/verify.rs:353-450 | A status list is accepted exactly when its URL serves an ES256 token, under a key id of the expected issuer, that verifies under that issuer's own key and carries the list |
| `IssuerKeys.ListTokenIsIssuers` | swiyu-didtool/src/cmd/trust/verify.rs:353-450 | The same down to the newest document of the issuer and the first method with the key id |
| `IssuerKeys.ListTokenIsExact` | swiyu-didtool/src/cmd/trust/verify.rs:357-388 | A list token is three dot-separated segments, the signed text being the first two |
| `TrustVerify.CachedListIsSigned` | swiyu-didtool/src/cmd/trust/verify.rs:333-351 | Every list in the cache at any point of a run was signed that way |
| `TrustVerify.NewestFirstIsStableSort` | swiyu-didtool/src/cmd/trust/verify.rs:60-60 | The sorted statements descend by issue time, are a permutation, and keep the order within one time |
| `TrustVerify.VerifyContext.LoadIssuerDoc` | swiyu-didtool/src/cmd/trust/verify.rs:268-312 | Cached or fetched, the document is the uncached one; a cached issuer is not fetched again |
| `TrustVerify.VerifyContext.LoadStatusList` | swiyu-didtool/src/cmd/trust/verify.rs:333-351 | Cached or fetched, the list has the width and bytes of the uncached one |
| `TrustVerify.VerifyContext.ParseAndVerifyStatusList` | swiyu-didtool/src/cmd/trust/verify.rs:353-450 | Same result as the uncached parser while sharing the document cache |
| `TrustVerify.VerifyContext.VerifySignature` | swiyu-didtool/src/cmd/trust/verify.rs:205-230 | Same check or error as the uncached signature check |
| `TrustVerify.VerifyContext.CheckStatus` | swiyu-didtool/src/cmd/trust/verify.rs:248-266 | Same check or error as the uncached status check |
| `TrustVerify.VerifyContext.VerifyOne` | swiyu-didtool/src/cmd/trust/verify.rs:161-203 | Same report or error as the uncached one |
| `TrustVerify.DecodeStatements` | swiyu-didtool/src/cmd/trust/verify.rs:54-59 | The decoding loop stops at the first malformed statement and names its 1-based position |

## Left out

- Lifecycle.LifecycleIsSound: covers in-place updates of a local log only, clock readings from 1970 to 10000 seconds before the end of year 9999, and fewer than 9999 rotations, past which the key store falls out of step.
- LogSecurity.SelfCertification: assumes that the two preliminary forms do not collide, since a hash of fixed length cannot be injective on all values.
- LogSecurity.TamperEvidence: says nothing of the proofs, which are not hashed, and holds for logs of at most 2^32 entries.
- DidTool.CmdCreate: a log file that cannot be written, and publishing, are not modelled.
- DidTool.CmdRotate: one step; a crash between the log write, the key commit and publishing is not modelled, nor are `--did`, `--out` and `--no-publish`.
- DidTool.CmdDeactivate: one step, as for rotate.
- Genesis.CreatedEntryIsAccepted: did:tdw only; did:webvh entries are created but the verifier rejects them by design.
- Json.ReplaceStringsBack: the code replaces in the serialised text; here it is done in string leaves and member names, so a SCID that could match inside a number or a keyword, or across an escape sequence such as `\n` and the text after it, is not covered. A SCID of structural characters such as `[`, `,` or `"` also matches outside strings; for such a DID the code may report a malformed entry where the model reports a SCID mismatch. An empty SCID is covered, as the error it leads to.
- Crypto.HashDeterminesInput: canonical JSON is taken to determine the value; the spelling of fractional numbers is not modelled.
- Jsonl.PrintedEntryParses: the JSON library is taken to give every printed value back; integers beyond 64 bits, which it would read as doubles, are not told apart.
- LogVerifier.VerifyLog: the 32-bit sequence number wraps around as in a release build; a debug build would stop.
- StatusLists.StatusList.Len: memory limits are not modelled, so the length is not bounded to 64 bits.
- TrustVerify.CmdVerify: the network is a fixed function, so answers that change during a run are not covered; requests are counted per issuer DID and per list URL, and two issuer DIDs may share a log URL.
- Examples.TwoGenesisLogs: the inputs of `Examples` and `TrustAnchor` are given for the libraries of `Instance`, not for the real ones.
- did:webvh verification, which does not exist, and JSON Patch application, which the verifier refuses.
- HTTP clients, credential handling and registry pages: network plumbing.
- Command line parsing, selectors, printing and the texts of library error messages.
- File permissions, atomic renames and pending files of the key store and the log.
- Key generation, PEM import and JWK decoding of P-256 keys: uninterpreted functions.
- `new_rotation` and `new_deactivation` constructors of the log entry, which the command line tool does not use, and OID4VCI, did:jwk and OAuth code: these would add only easy members.
