/**
 The in-place edits of a serialised entry between its construction and its final form
 (swiyu-core/src/didlog/entry_edits.rs), each against a function on values.
 */
module EntryEdits {
  import opened Json
  import opened LogEntry

  function WithoutProofSlot(v: Json, format: Format): Json {
    match format
    case Tdw03 => if v.Arr? && v.items != [] then Arr(v.items[..|v.items| - 1]) else v
    case WebVh10 => if v.Obj? then Obj(v.members - {"proof"}) else v
  }

  function WithVersionId(v: Json, versionId: string, format: Format): Json {
    match format
    case Tdw03 => if v.Arr? && v.items != [] then Arr(v.items[0 := Str(versionId)]) else v
    case WebVh10 => if v.Obj? then Obj(v.members["versionId" := Str(versionId)]) else v
  }

  function WithProof(v: Json, proof: Json, format: Format): Json {
    match format
    case Tdw03 => if v.Arr? then Arr(v.items + [Arr([proof])]) else v
    case WebVh10 => if v.Obj? then Obj(v.members["proof" := Arr([proof])]) else v
  }

  /** A `&mut Value`. */
  class ValueCell {
    var value: Json

    constructor (v: Json)
      ensures value == v
    {
      value := v;
    }

    method StripProofSlot(format: Format)
      modifies this
      ensures value == WithoutProofSlot(old(value), format)
    {
      match format
      case Tdw03 =>
        if value.Arr? && value.items != [] {
          value := Arr(value.items[..|value.items| - 1]);
        }
      case WebVh10 =>
        if value.Obj? {
          value := Obj(map k | k in value.members && k != "proof" :: value.members[k]);
        }
    }

    method SetVersionId(versionId: string, format: Format)
      modifies this
      ensures value == WithVersionId(old(value), versionId, format)
    {
      match format
      case Tdw03 =>
        if value.Arr? && value.items != [] {
          value := Arr([Str(versionId)] + value.items[1..]);
        }
      case WebVh10 =>
        if value.Obj? {
          value := Obj(value.members["versionId" := Str(versionId)]);
        }
    }

    method AppendProof(proof: Json, format: Format)
      modifies this
      ensures value == WithProof(old(value), proof, format)
    {
      match format
      case Tdw03 =>
        if value.Arr? {
          value := Arr(value.items + [Arr([proof])]);
        }
      case WebVh10 =>
        if value.Obj? {
          value := Obj(value.members["proof" := Arr([proof])]);
        }
    }
  }

  /**
   Stripping the empty proof slot of a printed entry, setting its versionId and appending a proof
   gives the printed form of the entry with that id and that one proof, for both wire formats.
   */
  lemma EditsCommuteWithPrinting(e: LogEntry, versionId: string, proof: Json)
    ensures WithProof(WithVersionId(WithoutProofSlot(e.ToJson(), e.format), versionId, e.format), proof, e.format)
            == e.(versionId := versionId, proofs := [proof]).ToJson()
  {
    hide LogParameters.ToJson, DocState.ToJson;
    var v := WithVersionId(WithoutProofSlot(e.ToJson(), e.format), versionId, e.format);
    match e.format
    case Tdw03 =>
      assert v.items == [Str(versionId), Str(e.versionTime), e.parameters.ToJson(), e.state.ToJson()];
    case WebVh10 =>
  }
}
