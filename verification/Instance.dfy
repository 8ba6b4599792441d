/**
 One concrete choice of the libraries.  It shows that what the model asks of them can be met, and it
 carries the examples of `Examples`.  None of it says how the real libraries work.
 */
module Instance {
  import opened Basics
  import opened Text
  import opened Json
  import opened Crypto
  import opened PublicKeys
  import opened Jsonl
  import opened VersionTime
  import opened Producer
  import StatusLists

  // --- JSON text: a self-delimiting code over digits, small letters and ';' ---

  predicate IsCode(c: char) {
    IsDigit(c) || 'a' <= c <= 'z' || c == ';'
  }

  predicate AllCode(s: string) {
    forall c | c in s :: IsCode(c)
  }

  function EncodeNat(n: nat): string {
    Decimal(n) + ";"
  }

  function EncodeText(s: string): string {
    if s == "" then "e" else "c" + EncodeNat(s[0] as nat) + EncodeText(s[1..])
  }

  ghost function Encode(j: Json): string
    decreases j, 2, 0
  {
    match j
    case Null => "n"
    case Bool(b) => if b then "t" else "f"
    case Int(n) => if n >= 0 then "i" + EncodeNat(n) else "m" + EncodeNat(-n)
    case Frac(bits) => "d" + EncodeNat(bits)
    case Str(s) => "s" + EncodeText(s)
    case Arr(_) => "a" + EncodeItems(j, 0)
    case Obj(m) => "o" + EncodeMembers(j, m.Keys)
  }

  ghost function EncodeItems(j: Json, from: nat): string
    requires j.Arr? && from <= |j.items|
    decreases j, 1, |j.items| - from
  {
    if from == |j.items| then "e" else "v" + Encode(j.items[from]) + EncodeItems(j, from + 1)
  }

  ghost function EncodeMembers(j: Json, names: set<string>): string
    requires j.Obj? && names <= j.members.Keys
    decreases j, 1, |names|
  {
    if names == {} then "e"
    else
      var k := Greatest(names);
      "k" + EncodeText(k) + Encode(j.members[k]) + EncodeMembers(j, names - {k})
  }

  lemma NatPrefix(a: nat, b: nat, x: string, y: string)
    requires EncodeNat(a) + x == EncodeNat(b) + y
    ensures a == b && x == y
  {
    NoSemicolon(a);
    NoSemicolon(b);
    assert EncodeNat(a) + x == Decimal(a) + [';'] + x && EncodeNat(b) + y == Decimal(b) + [';'] + y;
    SplitOnceAt(Decimal(a), ';', x);
    SplitOnceAt(Decimal(b), ';', y);
    DecimalInjective(a, b);
  }

  lemma NoSemicolon(n: nat)
    ensures ';' !in Decimal(n)
  {
  }

  lemma {:induction false} TextPrefix(a: string, b: string, x: string, y: string)
    requires EncodeText(a) + x == EncodeText(b) + y
    ensures a == b && x == y
  {
    assert (EncodeText(a) + x)[0] == if a == "" then 'e' else 'c';
    assert (EncodeText(b) + y)[0] == if b == "" then 'e' else 'c';
    if a == "" {
      assert (EncodeText(a) + x)[1..] == x && (EncodeText(b) + y)[1..] == y;
    } else {
      var restA, restB := EncodeText(a[1..]) + x, EncodeText(b[1..]) + y;
      assert (EncodeText(a) + x)[1..] == EncodeNat(a[0] as nat) + restA;
      assert (EncodeText(b) + y)[1..] == EncodeNat(b[0] as nat) + restB;
      NatPrefix(a[0] as nat, b[0] as nat, restA, restB);
      TextPrefix(a[1..], b[1..], x, y);
      assert a == [a[0]] + a[1..] && b == [b[0]] + b[1..];
    }
  }

  ghost function Tag(j: Json): char {
    match j
    case Null => 'n'
    case Bool(b) => if b then 't' else 'f'
    case Int(n) => if n >= 0 then 'i' else 'm'
    case Frac(_) => 'd'
    case Str(_) => 's'
    case Arr(_) => 'a'
    case Obj(_) => 'o'
  }

  ghost function Rest(j: Json): string {
    Encode(j)[1..]
  }

  lemma TagFirst(j: Json)
    ensures Encode(j) == [Tag(j)] + Rest(j)
  {
  }

  lemma SameTag(a: Json, b: Json, x: string, y: string)
    requires Encode(a) + x == Encode(b) + y
    ensures Tag(a) == Tag(b) && Rest(a) + x == Rest(b) + y
  {
    TagFirst(a);
    TagFirst(b);
    assert (Encode(a) + x)[0] == Tag(a) && (Encode(b) + y)[0] == Tag(b);
    assert (Encode(a) + x)[1..] == Rest(a) + x && (Encode(b) + y)[1..] == Rest(b) + y;
  }

  /** The code is self-delimiting: two values whose codes start one text are equal. */
  lemma {:induction false} EncodePrefix(a: Json, b: Json, x: string, y: string)
    requires Encode(a) + x == Encode(b) + y
    ensures a == b && x == y
    decreases a, 2, 0
  {
    SameTag(a, b, x, y);
    match a
    case Null => assert Rest(a) + x == x && Rest(b) + y == y;
    case Bool(_) => assert Rest(a) + x == x && Rest(b) + y == y;
    case Int(n) =>
      assert Rest(a) == EncodeNat(if n >= 0 then n else -n) && Rest(b) == EncodeNat(if b.n >= 0 then b.n else -b.n);
      NatPrefix(if n >= 0 then n else -n, if b.n >= 0 then b.n else -b.n, x, y);
    case Frac(bits) =>
      assert Rest(a) == EncodeNat(bits) && Rest(b) == EncodeNat(b.bits);
      NatPrefix(bits, b.bits, x, y);
    case Str(s) =>
      assert Rest(a) == EncodeText(s) && Rest(b) == EncodeText(b.s);
      TextPrefix(s, b.s, x, y);
    case Arr(items) =>
      assert Rest(a) == EncodeItems(a, 0) && Rest(b) == EncodeItems(b, 0);
      ItemsPrefix(a, 0, b, 0, x, y);
      assert items[0..] == items && b.items[0..] == b.items;
    case Obj(m) =>
      assert Rest(a) == EncodeMembers(a, m.Keys) && Rest(b) == EncodeMembers(b, b.members.Keys);
      MembersPrefix(a, m.Keys, b, b.members.Keys, x, y);
      assert m == b.members;
  }

  lemma {:induction false} ItemsPrefix(a: Json, i: nat, b: Json, j: nat, x: string, y: string)
    requires a.Arr? && b.Arr? && i <= |a.items| && j <= |b.items|
    requires EncodeItems(a, i) + x == EncodeItems(b, j) + y
    ensures a.items[i..] == b.items[j..] && x == y
    decreases a, 1, |a.items| - i
  {
    hide Encode;
    assert (EncodeItems(a, i) + x)[0] == if i == |a.items| then 'e' else 'v';
    assert (EncodeItems(b, j) + y)[0] == if j == |b.items| then 'e' else 'v';
    if i == |a.items| {
      assert (EncodeItems(a, i) + x)[1..] == x && (EncodeItems(b, j) + y)[1..] == y;
    } else {
      var restA, restB := EncodeItems(a, i + 1) + x, EncodeItems(b, j + 1) + y;
      assert (EncodeItems(a, i) + x)[1..] == Encode(a.items[i]) + restA;
      assert (EncodeItems(b, j) + y)[1..] == Encode(b.items[j]) + restB;
      EncodePrefix(a.items[i], b.items[j], restA, restB);
      ItemsPrefix(a, i + 1, b, j + 1, x, y);
      assert a.items[i..] == [a.items[i]] + a.items[i + 1..] && b.items[j..] == [b.items[j]] + b.items[j + 1..];
    }
  }

  lemma {:induction false} MembersPrefix(a: Json, names: set<string>, b: Json, others: set<string>, x: string,
                                         y: string)
    requires a.Obj? && b.Obj? && names <= a.members.Keys && others <= b.members.Keys
    requires EncodeMembers(a, names) + x == EncodeMembers(b, others) + y
    ensures names == others && x == y && forall k | k in names :: a.members[k] == b.members[k]
    decreases a, 1, |names|
  {
    hide Encode, EncodeText;
    assert (EncodeMembers(a, names) + x)[0] == if names == {} then 'e' else 'k';
    assert (EncodeMembers(b, others) + y)[0] == if others == {} then 'e' else 'k';
    if names == {} {
      assert (EncodeMembers(a, names) + x)[1..] == x && (EncodeMembers(b, others) + y)[1..] == y;
    } else {
      var k, l := Greatest(names), Greatest(others);
      var restA, restB := EncodeMembers(a, names - {k}) + x, EncodeMembers(b, others - {l}) + y;
      assert (EncodeMembers(a, names) + x)[1..] == EncodeText(k) + (Encode(a.members[k]) + restA);
      assert (EncodeMembers(b, others) + y)[1..] == EncodeText(l) + (Encode(b.members[l]) + restB);
      TextPrefix(k, l, Encode(a.members[k]) + restA, Encode(b.members[l]) + restB);
      EncodePrefix(a.members[k], b.members[l], restA, restB);
      MembersPrefix(a, names - {k}, b, others - {l}, x, y);
      assert names == (names - {k}) + {k} && others == (others - {l}) + {l};
    }
  }

  lemma {:induction false} TextIsCode(s: string)
    ensures AllCode(EncodeText(s))
  {
    if s == "" {
    } else {
      TextIsCode(s[1..]);
      assert AllCode("c" + EncodeNat(s[0] as nat));
    }
  }

  lemma {:induction false} EncodedIsCode(j: Json)
    ensures AllCode(Encode(j))
    decreases j, 2, 0
  {
    match j
    case Str(s) => TextIsCode(s);
    case Arr(_) => ItemsAreCode(j, 0);
    case Obj(m) => MembersAreCode(j, m.Keys);
    case _ =>
  }

  lemma {:induction false} ItemsAreCode(j: Json, from: nat)
    requires j.Arr? && from <= |j.items|
    ensures AllCode(EncodeItems(j, from))
    decreases j, 1, |j.items| - from
  {
    hide Encode;
    if from == |j.items| {
    } else {
      EncodedIsCode(j.items[from]);
      ItemsAreCode(j, from + 1);
    }
  }

  lemma {:induction false} MembersAreCode(j: Json, names: set<string>)
    requires j.Obj? && names <= j.members.Keys
    ensures AllCode(EncodeMembers(j, names))
    decreases j, 1, |names|
  {
    hide Encode, EncodeText;
    if names == {} {
    } else {
      var k := Greatest(names);
      TextIsCode(k);
      EncodedIsCode(j.members[k]);
      MembersAreCode(j, names - {k});
    }
  }

  ghost predicate IsCodeOf(s: string, j: Json) {
    Encode(j) == s
  }

  ghost function Decode(s: string): Result<Json, string> {
    if exists j :: IsCodeOf(s, j) then
      var j :| IsCodeOf(s, j);
      Ok(j)
    else Err("not a code")
  }

  ghost function SomeText(): JsonText {
    JsonText(j => Encode(j), s => Decode(s))
  }

  lemma SomeTextIsLawful()
    ensures LawfulText(SomeText())
  {
    var t := SomeText();
    forall v: Json ensures t.parse(t.print_(v)) == Ok(v) && PlainLine(t.print_(v)) {
      assert IsCodeOf(Encode(v), v);
      var w :| Decode(Encode(v)) == Ok(w) && IsCodeOf(Encode(v), w);
      assert Encode(v) + "" == Encode(w) + "";
      EncodePrefix(v, w, "", "");
      CodeIsPlain(v);
    }
  }

  lemma CodeIsPlain(v: Json)
    ensures PlainLine(Encode(v))
  {
    EncodedIsCode(v);
    TagFirst(v);
    var s := Encode(v);
    assert s[0] in s && s[|s| - 1] in s;
  }

  // --- time: seconds since the year 0 ---

  function PrintSecond(s: int): string {
    if s < MIN_SECOND then "" else Decimal(s - MIN_SECOND)
  }

  function ParseSecond(s: string): Option<int> {
    if AllDigits(s) then Some((ParseDecimal(s) + MIN_SECOND) * NANOS) else None
  }

  function SomeTime(): TimeText {
    TimeText(s => ParseSecond(s), s => PrintSecond(s))
  }

  lemma SomeTimeIsLawful()
    ensures LawfulTime(SomeTime())
  {
    forall s | MIN_SECOND <= s <= MAX_SECOND
      ensures ParseSecond(PrintSecond(s)) == Some(s * NANOS) && '{' !in PrintSecond(s)
    {
      ParsePrinted(s - MIN_SECOND);
    }
  }

  // --- cryptography: one character a bit, one hash, and signatures that always verify ---

  function BitChar(b: bool): char {
    if b then '2' else '1'
  }

  function ByteText(b: bv8): string {
    seq(8, k requires 0 <= k < 8 => BitChar(StatusLists.Bit(b, k)))
  }

  function BitsText(b: Bytes): string {
    if b == [] then "" else ByteText(b[0]) + BitsText(b[1..])
  }

  /** Multihashes, and nothing else, start with a Q. */
  function BytesText(b: Bytes): string {
    (if MULTIHASH_SHA256 <= b then "Q" else "1") + BitsText(b)
  }

  lemma ByteOfText(a: bv8, b: bv8)
    requires ByteText(a) == ByteText(b)
    ensures a == b
  {
    forall k: nat | k < 8 ensures StatusLists.Bit(a, k) == StatusLists.Bit(b, k) {
      assert ByteText(a)[k] == ByteText(b)[k];
    }
    StatusLists.ByteOfItsBits(a, b);
  }

  lemma {:induction false} BitsOfText(a: Bytes, b: Bytes)
    requires BitsText(a) == BitsText(b)
    ensures a == b
  {
    hide ByteText;
    if a == [] || b == [] {
      assert a != [] ==> |BitsText(a)| >= |ByteText(a[0])|;
      assert b != [] ==> |BitsText(b)| >= |ByteText(b[0])|;
      ByteTextLength();
    } else {
      ByteTextLength();
      assert BitsText(a)[..8] == ByteText(a[0]) && BitsText(b)[..8] == ByteText(b[0]);
      assert BitsText(a)[8..] == BitsText(a[1..]) && BitsText(b)[8..] == BitsText(b[1..]);
      ByteOfText(a[0], b[0]);
      BitsOfText(a[1..], b[1..]);
      assert a == [a[0]] + a[1..] && b == [b[0]] + b[1..];
    }
  }

  lemma ByteTextLength()
    ensures forall b :: |ByteText(b)| == 8
  {
  }

  lemma {:induction false} BitsAreBase58(b: Bytes)
    ensures forall c | c in BitsText(b) :: c == '1' || c == '2'
  {
    if b == [] {
    } else {
      BitsAreBase58(b[1..]);
    }
  }

  ghost predicate IsTextOf(s: string, b: Bytes) {
    BytesText(b) == s
  }

  ghost function BytesOf(s: string): Option<Bytes> {
    if exists b :: IsTextOf(s, b) then
      var b :| IsTextOf(s, b);
      Some(b)
    else None
  }

  lemma BytesBack(b: Bytes)
    ensures BytesOf(BytesText(b)) == Some(b)
  {
    var s := BytesText(b);
    assert IsTextOf(s, b);
    var w := BytesOf(s).value;
    assert IsTextOf(s, w);
    TextOfBytes(b, w);
  }

  lemma TextOfBytes(a: Bytes, b: Bytes)
    requires BytesText(a) == BytesText(b)
    ensures a == b
  {
    assert BytesText(a)[1..] == BitsText(a) && BytesText(b)[1..] == BitsText(b);
    BitsOfText(a, b);
  }

  function Zeros(n: nat): Bytes {
    seq(n, _ => 0)
  }

  /** The secret key [1] has a public key of its own. */
  function SomePublic(secret: Bytes): Bytes {
    if secret == [1] then seq(32, _ => 255) else Zeros(32)
  }

  ghost function SomeCrypto(): Crypto {
    Crypto(_ => Zeros(32), b => BytesText(b), s => BytesOf(s), _ => "", secret => SomePublic(secret), _ => true,
           (_, _) => Zeros(64), (_, _, _) => true)
  }

  lemma SomeCryptoIsLawful()
    ensures Lawful(SomeCrypto())
  {
    var c := SomeCrypto();
    forall b: Bytes ensures c.unbase58(c.base58(b)) == Some(b) && AllBase58(c.base58(b)) && c.base58(b) != "" {
      BytesBack(b);
      BitsAreBase58(b);
    }
  }

  lemma TwoPublicKeys()
    ensures Multikey(SomeCrypto(), SomePublic([])) != Multikey(SomeCrypto(), SomePublic([1]))
  {
    var a, b := MULTICODEC_ED25519 + SomePublic([]), MULTICODEC_ED25519 + SomePublic([1]);
    assert a[2] == 0 && b[2] == 255;
    hide BytesText;
    if BytesText(a) == BytesText(b) {
      TextOfBytes(a, b);
    }
    assert ("z" + BytesText(a))[1..] == BytesText(a) && ("z" + BytesText(b))[1..] == BytesText(b);
  }

  ghost function SomeTool(): Tool {
    Tool(SomeCrypto(), SomeText(), SomeTime(), s => s, _ => P256PublicKey([], []), _ => None)
  }

  /** The laws of the libraries can be met. */
  lemma SomeToolIsLawful()
    ensures LawfulTool(SomeTool())
  {
    hide Lawful, LawfulText, LawfulTime, SomeCrypto, SomeText, SomeTime;
    SomeCryptoIsLawful();
    SomeTextIsLawful();
    SomeTimeIsLawful();
  }
}
