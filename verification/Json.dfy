/**
 JSON values, the member accessors the repository uses, and the string substitution that
 `create` and the verifier perform on the serialised text (swiyu-didtool/src/cmd/did/create.rs,
 swiyu-core/src/didlog/verify.rs).  Neither `{SCID}` nor a SCID can span a quote, so the text
 substitution acts on the string leaves and the member names.
 */
module Json {
  import opened Basics
  import opened Text

  // A number that is not an integer is named by the bit pattern of its double.
  datatype Json =
    | Null
    | Bool(b: bool)
    | Int(n: int)
    | Frac(bits: u64)
    | Str(s: string)
    | Arr(items: seq<Json>)
    | Obj(members: map<string, Json>)
  {
    function AsStr(): Option<string> {
      if Str? then Some(s) else None
    }

    function AsBool(): Option<bool> {
      if Bool? then Some(b) else None
    }

    function AsU64(): Option<u64> {
      if Int? && 0 <= n < U64_LIMIT then Some(n) else None
    }

    /** `Value::get(key)`: `None` unless this is an object holding `key`. */
    function Get(key: string): Option<Json> {
      if Obj? then Lookup(members, key) else None
    }

    /** `get(key).and_then(Value::as_str)`. */
    function GetStr(key: string): Option<string> {
      match Get(key)
      case None => None
      case Some(v) => v.AsStr()
    }

    function GetU64(key: string): Option<u64> {
      match Get(key)
      case None => None
      case Some(v) => v.AsU64()
    }
  }

  function Lookup(m: map<string, Json>, key: string): Option<Json> {
    if key in m then Some(m[key]) else None
  }

  function Strings(values: seq<string>): (r: seq<Json>)
    ensures |r| == |values| && forall i | 0 <= i < |r| :: r[i] == Str(values[i])
  {
    seq(|values|, i requires 0 <= i < |values| => Str(values[i]))
  }

  // --- printers that insert one member after the other ---

  function Members(member: string -> Option<Json>, names: set<string>): map<string, Json> {
    map name | name in names && member(name).Some? :: member(name).value
  }

  function Put(m: map<string, Json>, key: string, v: Option<Json>): map<string, Json> {
    if v.Some? then m[key := v.value] else m
  }

  lemma NoMembers(member: string -> Option<Json>)
    ensures Members(member, {}) == map[]
  {
  }

  lemma Inserted(member: string -> Option<Json>, seen: set<string>, name: string) returns (next: set<string>)
    ensures next == seen + {name}
    ensures Put(Members(member, seen), name, member(name)) == Members(member, next)
  {
    next := seen + {name};
  }

  // --- substitution in the serialised text ---

  /** Code point order, the order in which a JSON object is serialised. */
  predicate Less(a: string, b: string) {
    b != "" && (a == "" || a[0] < b[0] || (a[0] == b[0] && Less(a[1..], b[1..])))
  }

  lemma {:induction false} LessIsStrictOrder(a: string, b: string)
    ensures !(Less(a, b) && Less(b, a))
    ensures a == b || Less(a, b) || Less(b, a)
  {
    if a != "" && b != "" && a[0] == b[0] {
      LessIsStrictOrder(a[1..], b[1..]);
      assert a == [a[0]] + a[1..] && b == [b[0]] + b[1..];
    }
  }

  lemma {:induction false} LessTransitive(a: string, b: string, c: string)
    requires Less(a, b) && Less(b, c)
    ensures Less(a, c)
  {
    if a != "" && a[0] == b[0] == c[0] {
      LessTransitive(a[1..], b[1..], c[1..]);
    }
  }

  predicate IsGreatest(k: string, ks: set<string>) {
    k in ks && forall x | x in ks :: x == k || Less(x, k)
  }

  lemma {:induction false} GreatestExists(ks: set<string>)
    requires ks != {}
    ensures exists k :: IsGreatest(k, ks)
  {
    var k :| k in ks;
    var rest := ks - {k};
    if rest == {} {
      assert ks == {k};
      assert IsGreatest(k, ks);
    } else {
      GreatestExists(rest);
      var g :| IsGreatest(g, rest);
      LessIsStrictOrder(g, k);
      if Less(g, k) {
        forall x | x in rest && x != g ensures Less(x, k) {
          LessTransitive(x, g, k);
        }
        assert IsGreatest(k, ks);
      } else {
        assert IsGreatest(g, ks);
      }
    }
  }

  function Greatest(ks: set<string>): (k: string)
    requires ks != {}
    ensures k in ks
  {
    GreatestExists(ks);
    assert forall a, b | IsGreatest(a, ks) && IsGreatest(b, ks) :: a == b by {
      forall a, b | IsGreatest(a, ks) && IsGreatest(b, ks) ensures a == b {
        LessIsStrictOrder(a, b);
      }
    }
    var k :| k in ks && IsGreatest(k, ks);
    k
  }

  /**
   The member whose value survives under the new name: members are printed in key order and the
   parser lets a later duplicate replace an earlier one.
   */
  function Survivor(ks: set<string>, pat: string, rep: string, renamed: string): (k: string)
    requires pat != "" && exists k | k in ks :: ReplaceAll(k, pat, rep) == renamed
    ensures k in ks && ReplaceAll(k, pat, rep) == renamed
  {
    var same := set k | k in ks && ReplaceAll(k, pat, rep) == renamed;
    assert same != {} by {
      var k :| k in ks && ReplaceAll(k, pat, rep) == renamed;
      assert k in same;
    }
    Greatest(same)
  }

  /** Names are ordered by their first difference; a prefix comes before what it begins. */
  ghost predicate Before(a: string, b: string, i: nat) {
    && i <= |a| && i < |b| && a[..i] == b[..i]
    && (i == |a| || a[i] < b[i])
  }

  lemma {:induction false} LessIsExact(a: string, b: string)
    ensures Less(a, b) ==> exists i :: Before(a, b, i)
    ensures forall i | Before(a, b, i) :: Less(a, b)
  {
    if a == "" || b == "" {
      assert Less(a, b) ==> Before(a, b, 0);
    } else if a[0] != b[0] {
      assert Less(a, b) ==> Before(a, b, 0);
      forall i: nat | Before(a, b, i) ensures i == 0 {
      }
    } else {
      LessIsExact(a[1..], b[1..]);
      if i: nat :| Before(a[1..], b[1..], i) {
        assert a[..i + 1] == [a[0]] + a[1..][..i] && b[..i + 1] == [b[0]] + b[1..][..i];
        assert Before(a, b, i + 1);
      }
      forall i: nat | Before(a, b, i) ensures Less(a, b) {
        assert i > 0;
        assert a[1..][..i - 1] == a[..i][1..] && b[1..][..i - 1] == b[..i][1..];
        assert Before(a[1..], b[1..], i - 1);
      }
    }
  }

  /** Of the members that get one name the last in order survives. */
  lemma SurvivorIsLast(ks: set<string>, pat: string, rep: string, renamed: string, k: string)
    requires pat != "" && k in ks && ReplaceAll(k, pat, rep) == renamed
    ensures var survivor := Survivor(ks, pat, rep, renamed);
            survivor == k || Less(k, survivor)
  {
    hide ReplaceAll, Less;
  }

  function ReplaceStrings(j: Json, pat: string, rep: string): Json
    requires pat != ""
    decreases j
  {
    match j
    case Str(s) => Str(ReplaceAll(s, pat, rep))
    case Arr(items) => Arr(seq(|items|, i requires 0 <= i < |items| => ReplaceStrings(items[i], pat, rep)))
    case Obj(m) =>
      Obj(map renamed | renamed in set k | k in m :: ReplaceAll(k, pat, rep) ::
            ReplaceStrings(m[Survivor(m.Keys, pat, rep, renamed)], pat, rep))
    case _ => j
  }

  /** Every string leaf and member name of a value. */
  function Texts(j: Json): set<string>
    decreases j
  {
    match j
    case Str(s) => {s}
    case Arr(items) => set i, t | 0 <= i < |items| && t in Texts(items[i]) :: t
    case Obj(m) => m.Keys + set k, t | k in m && t in Texts(m[k]) :: t
    case _ => {}
  }

  ghost predicate AllTexts(j: Json, p: string -> bool) {
    forall t | t in Texts(j) :: p(t)
  }

  lemma TextsOfString(s: string, p: string -> bool)
    requires p(s)
    ensures AllTexts(Str(s), p)
  {
  }

  lemma TextsOfArray(items: seq<Json>, p: string -> bool)
    requires forall i | 0 <= i < |items| :: AllTexts(items[i], p)
    ensures AllTexts(Arr(items), p)
  {
  }

  lemma TextsOfObject(m: map<string, Json>, p: string -> bool)
    requires forall k | k in m :: p(k) && AllTexts(m[k], p)
    ensures AllTexts(Obj(m), p)
  {
    forall t | t in Texts(Obj(m)) ensures p(t) {
      if t !in m {
        var k :| k in m && t in Texts(m[k]);
        assert AllTexts(m[k], p);
      }
    }
  }

  predicate UndoneIn(j: Json, pat: string, rep: string)
    requires pat != "" && rep != ""
  {
    ReplaceStrings(ReplaceStrings(j, pat, rep), rep, pat) == j
  }

  /** Substitution that is undone on every text of a value is undone on the value. */
  lemma {:induction false} ReplaceStringsBack(j: Json, pat: string, rep: string)
    requires pat != "" && rep != ""
    requires forall t | t in Texts(j) :: Undone(t, pat, rep)
    ensures UndoneIn(j, pat, rep)
    decreases j
  {
    match j
    case Str(s) =>
      assert Undone(s, pat, rep);
    case Arr(items) =>
      forall i | 0 <= i < |items| ensures UndoneIn(items[i], pat, rep) {
        ReplaceStringsBack(items[i], pat, rep);
      }
    case Obj(m) =>
      forall k | k in m ensures UndoneIn(m[k], pat, rep) {
        ReplaceStringsBack(m[k], pat, rep);
      }
      MembersBack(m, pat, rep);
    case _ =>
  }

  lemma NamesBack(m: map<string, Json>, pat: string, rep: string, k2: string)
    requires pat != "" && rep != ""
    requires forall k | k in m :: Undone(k, pat, rep)
    requires k2 in ReplaceStrings(Obj(m), pat, rep).members
    ensures ReplaceAll(k2, rep, pat) in m && ReplaceAll(ReplaceAll(k2, rep, pat), pat, rep) == k2
  {
    hide ReplaceAll;
    var k :| k in m && ReplaceAll(k, pat, rep) == k2;
    assert Undone(k, pat, rep);
  }

  lemma MemberBack(m: map<string, Json>, pat: string, rep: string, k: string)
    requires pat != "" && rep != "" && k in m
    requires forall x | x in m :: Undone(x, pat, rep) && UndoneIn(m[x], pat, rep)
    ensures var r := ReplaceStrings(Obj(m), pat, rep).members;
      var back := ReplaceStrings(Obj(r), rep, pat).members;
      k in back && back[k] == m[k]
  {
    hide ReplaceAll;
    var r := ReplaceStrings(Obj(m), pat, rep).members;
    assert Undone(k, pat, rep) && UndoneIn(m[k], pat, rep);
    forall x | x in m && ReplaceAll(x, pat, rep) == ReplaceAll(k, pat, rep) ensures x == k {
      assert Undone(x, pat, rep);
    }
    RenamedMember(m, pat, rep, k);
    forall x | x in r && ReplaceAll(x, rep, pat) == ReplaceAll(ReplaceAll(k, pat, rep), rep, pat)
      ensures x == ReplaceAll(k, pat, rep)
    {
      NamesBack(m, pat, rep, x);
    }
    hide ReplaceStrings;
    RenamedMember(r, rep, pat, ReplaceAll(k, pat, rep));
  }

  lemma MembersBack(m: map<string, Json>, pat: string, rep: string)
    requires pat != "" && rep != ""
    requires forall k | k in m :: Undone(k, pat, rep) && UndoneIn(m[k], pat, rep)
    ensures UndoneIn(Obj(m), pat, rep)
  {
    hide ReplaceAll;
    var r := ReplaceStrings(Obj(m), pat, rep).members;
    var back := ReplaceStrings(Obj(r), rep, pat).members;
    forall k2 | k2 in r ensures ReplaceAll(k2, rep, pat) in m {
      NamesBack(m, pat, rep, k2);
    }
    forall k | k in m ensures k in back && back[k] == m[k] {
      MemberBack(m, pat, rep, k);
    }
    assert back.Keys == m.Keys;
  }

  /** A member whose renaming can be undone keeps its value. */
  lemma RenamedMember(m: map<string, Json>, pat: string, rep: string, k: string)
    requires pat != "" && k in m
    requires forall x | x in m && ReplaceAll(x, pat, rep) == ReplaceAll(k, pat, rep) :: x == k
    ensures var r := ReplaceStrings(Obj(m), pat, rep).members;
            ReplaceAll(k, pat, rep) in r && r[ReplaceAll(k, pat, rep)] == ReplaceStrings(m[k], pat, rep)
  {
    assert Survivor(m.Keys, pat, rep, ReplaceAll(k, pat, rep)) == k;
  }

  /** Substitution leaves the member names alone when none of them holds the pattern. */
  lemma ReplaceInMembers(m: map<string, Json>, pat: string, rep: string)
    requires pat != "" && forall k | k in m :: !Contains(k, pat)
    ensures ReplaceStrings(Obj(m), pat, rep) == Obj(map k | k in m :: ReplaceStrings(m[k], pat, rep))
  {
    var r := ReplaceStrings(Obj(m), pat, rep).members;
    forall k | k in m ensures ReplaceAll(k, pat, rep) == k {
    }
    forall k | k in m ensures k in r && r[k] == ReplaceStrings(m[k], pat, rep) {
      RenamedMember(m, pat, rep, k);
    }
    assert r.Keys == m.Keys;
  }

  lemma ReplacedString(s: string, pat: string, rep: string)
    requires pat != ""
    ensures ReplaceStrings(Str(s), pat, rep) == Str(ReplaceAll(s, pat, rep))
  {
    hide ReplaceAll;
  }

  lemma ReplacedArray(before: seq<Json>, after: seq<Json>, pat: string, rep: string)
    requires pat != "" && |before| == |after|
    requires forall i | 0 <= i < |before| :: ReplaceStrings(before[i], pat, rep) == after[i]
    ensures ReplaceStrings(Arr(before), pat, rep) == Arr(after)
  {
    assert ReplaceStrings(Arr(before), pat, rep).items == after;
  }

  /** Members whose names do not hold the pattern are substituted one by one. */
  lemma ReplacedObject(before: map<string, Json>, after: map<string, Json>, pat: string, rep: string)
    requires pat != "" && before.Keys == after.Keys && forall k | k in before :: !Contains(k, pat)
    requires forall k | k in before :: ReplaceStrings(before[k], pat, rep) == after[k]
    ensures ReplaceStrings(Obj(before), pat, rep) == Obj(after)
  {
    hide ReplaceStrings, Contains;
    ReplaceInMembers(before, pat, rep);
  }

  predicate Untouched(j: Json, pat: string, rep: string)
    requires pat != ""
  {
    ReplaceStrings(j, pat, rep) == j
  }

  /** A value without the pattern is left alone. */
  lemma {:induction false} FreeValueKept(j: Json, pat: string, rep: string)
    requires pat != "" && forall t | t in Texts(j) :: !Contains(t, pat)
    ensures Untouched(j, pat, rep)
    decreases j
  {
    match j
    case Str(s) =>
      ReplaceInFree(s, pat, rep);
    case Arr(items) =>
      forall i | 0 <= i < |items| ensures Untouched(items[i], pat, rep) {
        FreeValueKept(items[i], pat, rep);
      }
    case Obj(m) =>
      forall k | k in m ensures Untouched(m[k], pat, rep) {
        FreeValueKept(m[k], pat, rep);
      }
      ReplaceInMembers(m, pat, rep);
    case _ =>
  }
}
