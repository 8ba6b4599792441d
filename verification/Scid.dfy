/**
 The self-reference of a did:tdw log: `create` replaces every `{SCID}` of the preliminary entry by
 the SCID derived from it (swiyu-didtool/src/cmd/did/create.rs), and the verifier replaces every
 SCID by `{SCID}` to derive it again (swiyu-core/src/didlog/verify.rs).
 */
module Scid {
  import opened Text
  import opened Json
  import opened Crypto

  const PLACEHOLDER := "{SCID}"

  /** Every placeholder follows a character that no SCID contains, or starts the text. */
  predicate Bordered(t: string) {
    forall k | 0 < k <= |t| && OccursAt(t, PLACEHOLDER, k) :: !IsBase58(t[k - 1])
  }

  /** On texts free of the SCID with bordered placeholders, the verifier undoes the creator's substitution. */
  lemma {:induction false} SubstitutionUndone(t: string, scid: string)
    requires scid != "" && AllBase58(scid) && !Contains(t, scid) && Bordered(t)
    ensures Undone(t, PLACEHOLDER, scid)
    decreases |t|
  {
    match Find(t, PLACEHOLDER)
    case None =>
    case Some(i) =>
      TailSubstitutable(t, i + |PLACEHOLDER|, scid);
      SubstitutionUndone(t[i + |PLACEHOLDER|..], scid);
      forall j | 0 <= j < i ensures !OccursAt(t[..i] + scid, scid, j) {
        NoEarlyScid(t, i, scid, j);
      }
      assert t == t[..i] + PLACEHOLDER + t[i + |PLACEHOLDER|..];
      UndoneFirst(t[..i], t[i + |PLACEHOLDER|..], PLACEHOLDER, scid);
  }

  lemma TailSubstitutable(t: string, from: nat, scid: string)
    requires from <= |t| && !Contains(t, scid) && Bordered(t)
    ensures !Contains(t[from..], scid) && Bordered(t[from..])
  {
    var tail := t[from..];
    assert tail == t[from..|t|];
    NotContainedInSlice(t, from, |t|, scid);
    forall k | 0 < k <= |tail| && OccursAt(tail, PLACEHOLDER, k) ensures !IsBase58(tail[k - 1]) {
      OccursInSlice(t, from, |t|, PLACEHOLDER, k);
    }
  }

  lemma NoEarlyScid(t: string, i: nat, scid: string, j: nat)
    requires AllBase58(scid) && !Contains(t, scid) && j < i <= |t|
    requires !IsBase58(t[i - 1])
    ensures !OccursAt(t[..i] + scid, scid, j)
  {
    var s := t[..i] + scid;
    if j + |scid| <= i {
      assert s[j..j + |scid|] == t[j..j + |scid|];
      assert !OccursAt(t, scid, j);
    } else {
      assert s[i - 1] == t[i - 1];
      assert forall c | c in scid :: IsBase58(c);
      assert forall x | 0 <= x < |scid| :: IsBase58(scid[x]);
      assert j + |scid| <= |s| ==> s[j..j + |scid|][i - 1 - j] == s[i - 1];
    }
  }

  /** On texts free of the placeholder, replacing any SCID by it loses nothing. */
  lemma {:induction false} AbstractionUndone(t: string, scid: string)
    requires scid != "" && !Contains(t, PLACEHOLDER)
    ensures Undone(t, scid, PLACEHOLDER)
    decreases |t|
  {
    match Find(t, scid)
    case None =>
    case Some(i) =>
      assert t[i + |scid|..] == t[i + |scid|..|t|];
      NotContainedInSlice(t, i + |scid|, |t|, PLACEHOLDER);
      AbstractionUndone(t[i + |scid|..], scid);
      forall j | 0 <= j < i ensures !OccursAt(t[..i] + PLACEHOLDER, PLACEHOLDER, j) {
        NoEarlyPlaceholder(t, i, j);
      }
      assert t == t[..i] + scid + t[i + |scid|..];
      UndoneFirst(t[..i], t[i + |scid|..], scid, PLACEHOLDER);
  }

  /** `{` only starts a placeholder, so none can straddle the start of another. */
  lemma NoEarlyPlaceholder(t: string, i: nat, j: nat)
    requires !Contains(t, PLACEHOLDER) && j < i <= |t|
    ensures !OccursAt(t[..i] + PLACEHOLDER, PLACEHOLDER, j)
  {
    var s := t[..i] + PLACEHOLDER;
    if j + |PLACEHOLDER| <= i {
      assert s[j..j + |PLACEHOLDER|] == t[j..j + |PLACEHOLDER|];
      assert !OccursAt(t, PLACEHOLDER, j);
    } else {
      assert s[i] == PLACEHOLDER[0] == '{';
      assert forall x | 1 <= x < |PLACEHOLDER| :: PLACEHOLDER[x] != '{';
      assert j + |PLACEHOLDER| <= |s| ==> s[j..j + |PLACEHOLDER|][i - j] == s[i];
    }
  }

  /** A SCID that touches the text before its placeholder is not found again where it was put. */
  lemma BorderIsNeeded()
    ensures !Contains("a{SCID}", "aa") && !Undone("a{SCID}", PLACEHOLDER, "aa")
  {
    UnborderedReplaced();
    assert "{SCID}a"[0] != "a{SCID}"[0];
    var t := "a{SCID}";
    forall k: nat | k + 2 <= |t| ensures !OccursAt(t, "aa", k) {
      var piece := t[k..k + 2];
      assert piece[1] == t[k + 1];
    }
  }

  lemma UnborderedReplaced()
    ensures ReplaceAll("a{SCID}", PLACEHOLDER, "aa") == "aaa" && ReplaceAll("aaa", "aa", PLACEHOLDER) == "{SCID}a"
  {
    assert "a{SCID}" == "a" + PLACEHOLDER + "" && "a" + "aa" + "" == "aaa";
    assert ("a" + PLACEHOLDER)[..|PLACEHOLDER|][0] != PLACEHOLDER[0];
    assert "aaa" == "" + "aa" + "a" && "" + PLACEHOLDER + "a" == "{SCID}a";
    hide ReplaceAll;
    ReplaceAtFirst("a", PLACEHOLDER, "", "aa");
    ReplaceAtFirst("", "aa", "a", PLACEHOLDER);
    ReplaceInFree("", PLACEHOLDER, "aa");
    ReplaceInFree("a", "aa", PLACEHOLDER);
  }

  predicate Substitutable(j: Json, scid: string) {
    forall t | t in Texts(j) :: !Contains(t, scid) && Bordered(t)
  }

  predicate PlaceholderFree(j: Json) {
    forall t | t in Texts(j) :: !Contains(t, PLACEHOLDER)
  }

  lemma ValueSubstitutionUndone(j: Json, scid: string)
    requires scid != "" && AllBase58(scid) && Substitutable(j, scid)
    ensures ReplaceStrings(ReplaceStrings(j, PLACEHOLDER, scid), scid, PLACEHOLDER) == j
  {
    forall t | t in Texts(j) ensures Undone(t, PLACEHOLDER, scid) {
      SubstitutionUndone(t, scid);
    }
    ReplaceStringsBack(j, PLACEHOLDER, scid);
  }

  lemma ValueAbstractionInjective(a: Json, b: Json, scid: string)
    requires scid != "" && PlaceholderFree(a) && PlaceholderFree(b)
    requires ReplaceStrings(a, scid, PLACEHOLDER) == ReplaceStrings(b, scid, PLACEHOLDER)
    ensures a == b
  {
    forall t | t in Texts(a) || t in Texts(b) ensures Undone(t, scid, PLACEHOLDER) {
      AbstractionUndone(t, scid);
    }
    ReplaceStringsBack(a, scid, PLACEHOLDER);
    ReplaceStringsBack(b, scid, PLACEHOLDER);
  }
}
