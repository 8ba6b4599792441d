/**
 The on-disk key store: one directory per DID, one numbered snapshot of all keys per log entry
 (swiyu-didtool/src/keystore.rs).
 */
module KeyStore {
  import opened Basics
  import opened Text
  import Did

  /** The private keys of one snapshot. */
  datatype KeySet = KeySet(authorized: Bytes, authentication: Bytes, assertion: Bytes)

  /** `did.txt` and the snapshot directories by name. */
  datatype EntryDir = EntryDir(didText: string, snapshots: map<string, KeySet>)

  datatype StoreError = AlreadyExists(hash: string) | NotFound(hash: string) | Mismatch(hash: string)

  // --- snapshot names ---

  /** `{version:04}`. */
  function SnapshotName(version: nat): string {
    Padded(Decimal(version))
  }

  function Padded(digits: string): (r: string)
    ensures |r| == if |digits| < 4 then 4 else |digits|
    ensures AllDigits(digits) ==> AllDigits(r)
    decreases 4 - |digits|
  {
    if |digits| >= 4 then digits else Padded("0" + digits)
  }

  /** Which directory names count as snapshots. */
  predicate IsSnapshotName(name: string) {
    |name| == 4 && AllDigits(name)
  }

  function Versions(names: set<string>): set<nat> {
    set name | name in names && IsSnapshotName(name) :: ParseDecimal(name)
  }

  lemma {:induction false} LeadingZero(digits: string)
    requires AllDigits(digits)
    ensures AllDigits("0" + digits) && ParseDecimal("0" + digits) == ParseDecimal(digits)
  {
    var s := "0" + digits;
    if digits == "" {
      assert s[..0] == "";
      assert ParseDecimal(s[..0]) == 0;
    } else {
      var front := digits[..|digits| - 1];
      assert s[..|s| - 1] == "0" + front;
      LeadingZero(front);
    }
  }

  lemma {:induction false} PaddedParses(digits: string)
    requires AllDigits(digits)
    ensures ParseDecimal(Padded(digits)) == ParseDecimal(digits)
    decreases 4 - |digits|
  {
    if |digits| < 4 {
      LeadingZero(digits);
      PaddedParses("0" + digits);
    }
  }

  lemma DecimalLength(n: nat)
    ensures |Decimal(n)| <= 4 <==> n < 10000
  {
    var tens, hundreds := n / 10, n / 10 / 10;
    assert n >= 10 ==> |Decimal(n)| == |Decimal(tens)| + 1;
    assert tens >= 10 ==> |Decimal(tens)| == |Decimal(hundreds)| + 1;
    assert hundreds >= 10 ==> |Decimal(hundreds)| == |Decimal(hundreds / 10)| + 1;
    assert hundreds / 10 >= 10 ==> |Decimal(hundreds / 10)| == |Decimal(hundreds / 10 / 10)| + 1;
  }

  /** A printed version is recognised exactly below 10000, and then reads back as itself. */
  lemma SnapshotNameParses(version: nat)
    ensures IsSnapshotName(SnapshotName(version)) <==> version < 10000
    ensures ParseDecimal(SnapshotName(version)) == version
  {
    DecimalLength(version);
    PaddedParses(Decimal(version));
    ParsePrinted(version);
  }

  lemma SnapshotNamesDistinct(a: nat, b: nat)
    requires SnapshotName(a) == SnapshotName(b)
    ensures a == b
  {
    SnapshotNameParses(a);
    SnapshotNameParses(b);
  }

  // --- versions of an entry ---

  lemma {:induction false} MaximumExists(s: set<nat>)
    requires s != {}
    ensures exists m :: IsMaximum(m, s)
  {
    var x :| x in s;
    var rest := s - {x};
    if rest == {} {
      assert s == {x};
      assert IsMaximum(x, s);
    } else {
      MaximumExists(rest);
      var m :| IsMaximum(m, rest);
      assert s == rest + {x};
      assert IsMaximum(if x > m then x else m, s);
    }
  }

  predicate IsMaximum(m: nat, s: set<nat>) {
    m in s && forall x | x in s :: x <= m
  }

  function Maximum(s: set<nat>): (m: nat)
    requires s != {}
    ensures IsMaximum(m, s)
  {
    MaximumExists(s);
    var m :| m in s && IsMaximum(m, s);
    m
  }

  function LatestVersion(dir: EntryDir): Option<nat> {
    var versions := Versions(dir.snapshots.Keys);
    if versions == {} then None else Some(Maximum(versions))
  }

  function KeysAt(dir: EntryDir, version: nat): Option<KeySet> {
    if SnapshotName(version) in dir.snapshots then Some(dir.snapshots[SnapshotName(version)]) else None
  }

  /** The entry after a new snapshot was written under the next number. */
  function WithNextVersion(dir: EntryDir, keys: KeySet): EntryDir
    requires LatestVersion(dir).Some?
  {
    dir.(snapshots := dir.snapshots[SnapshotName(LatestVersion(dir).value + 1) := keys])
  }

  function NewEntry(did: string, keys: KeySet): EntryDir {
    EntryDir(did, map["0001" := keys])
  }

  function FindEntry(dirs: map<string, EntryDir>, hash: string, did: string): Result<Option<EntryDir>, StoreError> {
    if hash !in dirs then Ok(None)
    else if Trim(dirs[hash].didText) != did then Err(Mismatch(hash))
    else Ok(Some(dirs[hash]))
  }

  class KeyStore {
    // short hash of a DID string, naming its directory
    const didHash: string -> string
    var dirs: map<string, EntryDir>

    constructor (didHash: string -> string)
      ensures this.didHash == didHash && dirs == map[]
    {
      this.didHash := didHash;
      dirs := map[];
    }

    method Commit(staged: KeySet, did: Did.Did) returns (r: Result<string, StoreError>)
      modifies this
      ensures var hash := didHash(did.ToString());
        if hash in old(dirs) then r == Err(AlreadyExists(hash)) && dirs == old(dirs)
        else r == Ok(hash) && dirs == old(dirs)[hash := NewEntry(did.ToString(), staged)]
    {
      var didStr := did.ToString();
      var hash := didHash(didStr);
      if hash in dirs {
        return Err(AlreadyExists(hash));
      }
      var snapshots: map<string, KeySet> := map[];
      snapshots := snapshots["0001" := staged];
      dirs := dirs[hash := EntryDir(didStr, snapshots)];
      return Ok(hash);
    }

    method FindDid(did: Did.Did) returns (r: Result<Option<EntryDir>, StoreError>)
      ensures r == FindEntry(dirs, didHash(did.ToString()), did.ToString())
    {
      var didStr := did.ToString();
      var hash := didHash(didStr);
      if hash !in dirs {
        return Ok(None);
      }
      var stored := Trim(dirs[hash].didText);
      if stored != didStr {
        return Err(Mismatch(hash));
      }
      return Ok(Some(dirs[hash]));
    }

    method AddVersion(hash: string, staged: KeySet) returns (r: Result<nat, StoreError>)
      requires hash in dirs
      modifies this
      ensures match LatestVersion(old(dirs)[hash])
        case None => r == Err(NotFound(hash)) && dirs == old(dirs)
        case Some(latest) =>
          r == Ok(latest + 1) && dirs == old(dirs)[hash := WithNextVersion(old(dirs)[hash], staged)]
    {
      var dir := dirs[hash];
      match LatestVersion(dir)
      case None =>
        return Err(NotFound(hash));
      case Some(latest) =>
        var next := latest + 1;
        var name := SnapshotName(next);
        dirs := dirs[hash := EntryDir(dir.didText, dir.snapshots[name := staged])];
        return Ok(next);
    }
  }

  predicate Ascending(xs: seq<nat>) {
    forall i, j | 0 <= i < j < |xs| :: xs[i] < xs[j]
  }

  function Elements(xs: seq<nat>): set<nat> {
    set i | 0 <= i < |xs| :: xs[i]
  }

  method InsertSorted(xs: seq<nat>, x: nat) returns (r: seq<nat>)
    requires Ascending(xs) && x !in Elements(xs)
    ensures Ascending(r) && Elements(r) == Elements(xs) + {x}
  {
    var i := 0;
    while i < |xs| && xs[i] < x
      invariant 0 <= i <= |xs|
      invariant forall j | 0 <= j < i :: xs[j] < x
    {
      i := i + 1;
    }
    InsertedAt(xs, i, x);
    r := xs[..i] + [x] + xs[i..];
  }

  lemma InsertedAt(xs: seq<nat>, i: nat, x: nat)
    requires Ascending(xs) && i <= |xs| && x !in Elements(xs)
    requires (forall j | 0 <= j < i :: xs[j] < x) && (i < |xs| ==> xs[i] >= x)
    ensures var r := xs[..i] + [x] + xs[i..];
            Ascending(r) && Elements(r) == Elements(xs) + {x}
  {
    var r := xs[..i] + [x] + xs[i..];
    assert i < |xs| ==> xs[i] in Elements(xs);
    assert forall j | 0 <= j < |r| :: r[j] == if j < i then xs[j] else if j == i then x else xs[j - 1];
    forall y | y in Elements(xs) + {x} ensures y in Elements(r) {
      if y == x {
        assert r[i] == y;
      } else {
        var k :| 0 <= k < |xs| && xs[k] == y;
        assert r[if k < i then k else k + 1] == y;
      }
    }
  }

  /** Equally long digit strings of the same value are equal. */
  lemma {:induction false} SameDigits(a: string, b: string)
    requires AllDigits(a) && AllDigits(b) && |a| == |b| && ParseDecimal(a) == ParseDecimal(b)
    ensures a == b
  {
    if a == "" {
    } else {
      var n := |a| - 1;
      assert a[n] in a && b[n] in b;
      var x, y := a[n] as int - '0' as int, b[n] as int - '0' as int;
      assert ParseDecimal(a) == ParseDecimal(a[..n]) * 10 + x;
      assert ParseDecimal(b) == ParseDecimal(b[..n]) * 10 + y;
      SameDigits(a[..n], b[..n]);
      assert a == a[..n] + [a[n]] && b == b[..n] + [b[n]];
    }
  }

  lemma ValueBelowPower(name: string)
    requires IsSnapshotName(name)
    ensures ParseDecimal(name) < 10000
  {
    assert name[3] in name && name[2] in name && name[1] in name && name[0] in name;
    assert name[..3][..2] == name[..2] && name[..2][..1] == name[..1] && name[..1][..0] == "";
    assert ParseDecimal(name[..1]) == ParseDecimal(name[..1][..0]) * 10 + (name[0] as int - '0' as int);
    assert ParseDecimal(name[..2]) == ParseDecimal(name[..1]) * 10 + (name[1] as int - '0' as int);
    assert ParseDecimal(name[..3]) == ParseDecimal(name[..2]) * 10 + (name[2] as int - '0' as int);
  }

  /** `all_versions`: the recognised snapshot numbers in ascending order; the directory order is arbitrary. */
  method AllVersions(hash: string, dir: EntryDir) returns (r: Result<seq<nat>, StoreError>)
    ensures Versions(dir.snapshots.Keys) == {} ==> r == Err(NotFound(hash))
    ensures Versions(dir.snapshots.Keys) != {} ==>
              r.Ok? && Ascending(r.value) && Elements(r.value) == Versions(dir.snapshots.Keys)
  {
    var versions: seq<nat> := [];
    var names := dir.snapshots.Keys;
    while names != {}
      invariant names <= dir.snapshots.Keys && Ascending(versions)
      invariant Elements(versions) == Versions(dir.snapshots.Keys - names)
      decreases names
    {
      var name :| name in names;
      ghost var seen := dir.snapshots.Keys - names;
      assert dir.snapshots.Keys - (names - {name}) == seen + {name};
      names := names - {name};
      VersionsAdd(seen, name);
      if IsSnapshotName(name) {
        var v := ParseDecimal(name);
        versions := InsertSorted(versions, v);
      }
    }
    assert dir.snapshots.Keys - {} == dir.snapshots.Keys;
    if versions == [] {
      return Err(NotFound(hash));
    }
    assert versions[0] in Elements(versions);
    return Ok(versions);
  }

  lemma VersionsAdd(seen: set<string>, name: string)
    requires name !in seen
    ensures Versions(seen + {name}) == Versions(seen) + (if IsSnapshotName(name) then {ParseDecimal(name)} else {})
    ensures IsSnapshotName(name) ==> ParseDecimal(name) !in Versions(seen)
  {
    forall other | other in seen && IsSnapshotName(other) && IsSnapshotName(name)
      ensures ParseDecimal(other) != ParseDecimal(name)
    {
      if ParseDecimal(other) == ParseDecimal(name) {
        SameDigits(other, name);
      }
    }
  }

  // --- lockstep with the log ---

  function SnapshotNames(n: nat): set<string> {
    set v | 1 <= v <= n :: SnapshotName(v)
  }

  function UpTo(n: nat): set<nat> {
    set v: nat | v <= n && IsIndex(v, n)
  }

  predicate IsIndex(v: nat, n: nat) {
    1 <= v <= n
  }

  /** The snapshots are exactly 1..n, and that is what the store sees of them. */
  predicate Lockstep(dir: EntryDir, n: nat) {
    dir.snapshots.Keys == SnapshotNames(n) && Versions(dir.snapshots.Keys) == UpTo(n)
  }

  lemma LockstepBelowLimit(n: nat)
    ensures Versions(SnapshotNames(n)) == UpTo(n) <==> n < 10000
  {
    forall v | 1 <= v <= n ensures SnapshotName(v) in SnapshotNames(n) {
    }
    if n < 10000 {
      forall v: nat ensures v in Versions(SnapshotNames(n)) <==> v in UpTo(n) {
        SnapshotNameParses(v);
        forall name | name in SnapshotNames(n) && ParseDecimal(name) == v && IsSnapshotName(name) ensures v in UpTo(n) {
          var w :| 1 <= w <= n && SnapshotName(w) == name;
          SnapshotNameParses(w);
        }
      }
    } else {
      forall name | name in SnapshotNames(n) && IsSnapshotName(name) ensures ParseDecimal(name) != n {
        ValueBelowPower(name);
      }
      assert n in UpTo(n);
    }
  }

  lemma LatestInLockstep(dir: EntryDir, n: nat)
    requires n >= 1 && Lockstep(dir, n)
    ensures LatestVersion(dir) == Some(n) && KeysAt(dir, n).Some?
  {
    assert n in UpTo(n);
  }

  lemma FirstSnapshot(did: string, keys: KeySet)
    ensures Lockstep(NewEntry(did, keys), 1) && KeysAt(NewEntry(did, keys), 1) == Some(keys)
  {
    SnapshotNameParses(1);
    LeadingZero("1");
    LeadingZero("01");
    LeadingZero("001");
    assert "0" + "1" == "01" && "0" + "01" == "001" && "0" + "001" == "0001" && "1"[..0] == "";
    assert ParseDecimal("1") == ParseDecimal("1"[..0]) * 10 + 1;
    SameDigits(SnapshotName(1), "0001");
    assert SnapshotNames(1) == {SnapshotName(1)};
    LockstepBelowLimit(1);
  }

  /**
   Adding a version keeps the store in lockstep exactly below 9999; there it overwrites nothing and the
   new snapshot is the latest.  At 9999 the next name has five digits and is not recognised.
   */
  lemma AddVersionInLockstep(dir: EntryDir, n: nat, keys: KeySet)
    requires n >= 1 && Lockstep(dir, n)
    ensures LatestVersion(dir) == Some(n)
    ensures var next := WithNextVersion(dir, keys);
      && (Lockstep(next, n + 1) <==> n < 9999)
      && KeysAt(next, n + 1) == Some(keys)
      && (forall v: nat | v <= n :: KeysAt(next, v) == KeysAt(dir, v))
  {
    LatestInLockstep(dir, n);
    var next := WithNextVersion(dir, keys);
    forall v: nat | v <= n ensures SnapshotName(v) != SnapshotName(n + 1) {
      if SnapshotName(v) == SnapshotName(n + 1) {
        SnapshotNamesDistinct(v, n + 1);
      }
    }
    assert next.snapshots.Keys == SnapshotNames(n) + {SnapshotName(n + 1)};
    assert SnapshotNames(n + 1) == SnapshotNames(n) + {SnapshotName(n + 1)};
    LockstepBelowLimit(n + 1);
  }

  /** Past the limit the store never sees version 10000 and the next rotation overwrites its snapshot. */
  lemma OverwrittenPastLimit(dir: EntryDir, first: KeySet, second: KeySet)
    requires Lockstep(dir, 9999)
    ensures LatestVersion(dir).Some?
    ensures var once := WithNextVersion(dir, first);
      LatestVersion(once) == Some(9999) && WithNextVersion(once, second) == WithNextVersion(dir, second)
  {
    LatestInLockstep(dir, 9999);
    SnapshotNameParses(10000);
    var once := WithNextVersion(dir, first);
    assert once.snapshots.Keys == dir.snapshots.Keys + {SnapshotName(10000)};
    assert Versions(once.snapshots.Keys) == Versions(dir.snapshots.Keys);
    assert once.snapshots[SnapshotName(10000) := second] == dir.snapshots[SnapshotName(10000) := second];
  }

  /** In lockstep, `all_versions` lists 1, 2, .., n. */
  lemma {:induction false} AscendingUpTo(xs: seq<nat>, n: nat)
    requires Ascending(xs) && Elements(xs) == UpTo(n)
    ensures |xs| == n && forall i | 0 <= i < n :: xs[i] == i + 1
    decreases n
  {
    assert |xs| > 0 ==> xs[0] in Elements(xs);
    if n == 0 {
    } else {
      assert n in UpTo(n);
      var last := |xs| - 1;
      var k :| 0 <= k < |xs| && xs[k] == n;
      assert xs[last] in Elements(xs);
      assert xs[k] <= xs[last];
      var front := xs[..last];
      forall v | v in Elements(front) ensures v in UpTo(n - 1) {
        var j :| 0 <= j < last && front[j] == v;
        assert xs[j] in Elements(xs) && xs[j] < xs[last];
      }
      forall v | v in UpTo(n - 1) ensures v in Elements(front) {
        assert v in UpTo(n);
        var j :| 0 <= j < |xs| && xs[j] == v;
        assert front[j] == v;
      }
      AscendingUpTo(front, n - 1);
      assert forall i | 0 <= i < n - 1 :: xs[i] == front[i];
    }
  }
}
