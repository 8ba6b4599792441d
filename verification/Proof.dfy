/**
 Data integrity proofs of the eddsa-jcs-2022 cryptosuite, section 3.3 of W3C VC Data Integrity
 EdDSA Cryptosuites (swiyu-core/src/proof.rs).
 */
module Proof {
  import opened Basics
  import opened Json
  import opened Crypto

  datatype ProofPurpose = Authentication | AssertionMethod

  function PurposeName(p: ProofPurpose): string {
    match p
    case Authentication => "authentication"
    case AssertionMethod => "assertionMethod"
  }

  const PROOF_TYPE := "DataIntegrityProof"
  const CRYPTOSUITE := "eddsa-jcs-2022"

  datatype ProofConfig = ProofConfig(verificationMethod: string, purpose: ProofPurpose, challenge: string,
                                     created: string)

  datatype DataIntegrityProof = DataIntegrityProof(config: ProofConfig, proofValue: string)

  function ConfigToJson(config: ProofConfig): Json {
    Obj(map["type" := Str(PROOF_TYPE), "cryptosuite" := Str(CRYPTOSUITE),
            "verificationMethod" := Str(config.verificationMethod), "proofPurpose" := Str(PurposeName(config.purpose)),
            "challenge" := Str(config.challenge), "created" := Str(config.created)])
  }

  function ProofToJson(proof: DataIntegrityProof): Json {
    Obj(ConfigToJson(proof.config).members["proofValue" := Str(proof.proofValue)])
  }

  /** `DataIntegrityProof::sign`. */
  function Sign(c: Crypto, signer: Bytes, document: Json, config: ProofConfig): DataIntegrityProof {
    var signature := c.edSign(signer, EddsaJcsHash(c, document, ConfigToJson(config)));
    DataIntegrityProof(config, "z" + c.base58(signature))
  }

  datatype ProofError =
    | NotAnObject
    | MissingField(field: string)
    | InvalidField(field: string)
    | UnknownCryptosuite
    | UnknownProofPurpose

  function ProofString(obj: map<string, Json>, field: string): Result<string, ProofError> {
    match Lookup(obj, field)
    case None => Err(MissingField(field))
    case Some(v) => if v.Str? then Ok(v.s) else Err(InvalidField(field))
  }

  function ProofFromJson(v: Json): Result<DataIntegrityProof, ProofError> {
    if !v.Obj? then Err(NotAnObject)
    else
      var obj := v.members;
      var kind :- ProofString(obj, "type");
      if kind != PROOF_TYPE then Err(InvalidField("type"))
      else
        var suite :- ProofString(obj, "cryptosuite");
        if suite != CRYPTOSUITE then Err(UnknownCryptosuite)
        else
          var verificationMethod :- ProofString(obj, "verificationMethod");
          var purposeName :- ProofString(obj, "proofPurpose");
          var purpose :- (if purposeName == "authentication" then Ok(Authentication)
                          else if purposeName == "assertionMethod" then Ok(AssertionMethod)
                          else Err(UnknownProofPurpose));
          var challenge :- ProofString(obj, "challenge");
          var created :- ProofString(obj, "created");
          var proofValue :- ProofString(obj, "proofValue");
          Ok(DataIntegrityProof(ProofConfig(verificationMethod, purpose, challenge, created), proofValue))
  }

  lemma ParsePrintedProof(proof: DataIntegrityProof)
    ensures ProofFromJson(ProofToJson(proof)) == Ok(proof)
  {
  }

  /** What the verifier strips to get the signed options back. */
  lemma OptionsOfPrintedProof(proof: DataIntegrityProof)
    ensures Obj(ProofToJson(proof).members - {"proofValue"}) == ConfigToJson(proof.config)
    ensures ProofToJson(proof).GetStr("verificationMethod") == Some(proof.config.verificationMethod)
    ensures ProofToJson(proof).GetStr("proofValue") == Some(proof.proofValue)
  {
    var m := ConfigToJson(proof.config).members;
    assert m["proofValue" := Str(proof.proofValue)] - {"proofValue"} == m;
  }

  /** The parser accepts exactly the eddsa-jcs-2022 proofs for one of the two purposes. */
  lemma ProofIsExact(v: Json, proof: DataIntegrityProof)
    ensures ProofFromJson(v) == Ok(proof) <==>
      && v.Get("type") == Some(Str("DataIntegrityProof")) && v.Get("cryptosuite") == Some(Str("eddsa-jcs-2022"))
      && v.Get("verificationMethod") == Some(Str(proof.config.verificationMethod))
      && v.Get("proofPurpose")
         == Some(Str(if proof.config.purpose == Authentication then "authentication" else "assertionMethod"))
      && v.Get("challenge") == Some(Str(proof.config.challenge)) && v.Get("created") == Some(Str(proof.config.created))
      && v.Get("proofValue") == Some(Str(proof.proofValue))
  {
  }
}
