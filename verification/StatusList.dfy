/**
 Status lists (swiyu-core/src/statuslist/mod.rs): a byte array that holds 1-bit or 2-bit slots,
 least significant bits first (section 4.1 of draft-ietf-oauth-status-list).

 The reference view is the bit string of the bytes, bit k of byte n being bit 8n + k; slot i of a
 list of width w is the number written in bits iw .. iw + w.  The class reads and writes with
 shifts and masks, and is proved to act on that view as on a plain sequence.
 */
module StatusLists {
  import opened Basics
  import opened Json
  import opened Wire

  datatype StatusListError =
    | MissingField(name: string)
    | InvalidFieldType(name: string)
    | UnsupportedBits(bits: u8)
    | InvalidBase64
    | Decompress
    | IdxOutOfRange(idx: u64, slots: nat)
    | InvalidCapacity(capacity: u64, bits: u8)
    | ValueOutOfRange(raw: bv8, bits: u8)

  type u8 = n: int | 0 <= n < 256

  // --- slot values ---

  datatype StatusValue = Valid | Revoked | Suspended | Reserved(n: bv8) {

    static function FromRaw(raw: bv8, bits: u8): StatusValue {
      if raw == 0 then Valid
      else if raw == 1 then Revoked
      else if bits == 2 && raw == 2 then Suspended
      else Reserved(raw)
    }

    /** The width-agnostic number of a value. */
    function Raw(): bv8 {
      match this
      case Valid => 0
      case Revoked => 1
      case Suspended => 2
      case Reserved(n) => n
    }

    function ToRaw(bits: u8): Result<bv8, StatusListError> {
      if bits != 1 && bits != 2 then Err(UnsupportedBits(bits))
      else if Raw() > (if bits == 1 then 1 else 3) then Err(ValueOutOfRange(Raw(), bits))
      else Ok(Raw())
    }
  }

  predicate Width(bits: u8) {
    bits == 1 || bits == 2
  }

  predicate Fits(raw: bv8, bits: u8) {
    raw < (if bits == 1 then 2 else 4)
  }

  /** A value written and read back is itself, unless it is a `Reserved` spelling of a named one. */
  lemma EncodedValueReadsBack(v: StatusValue, bits: u8)
    requires Width(bits) && v.ToRaw(bits).Ok?
    ensures StatusValue.FromRaw(v.ToRaw(bits).value, bits).Raw() == v.Raw()
    ensures StatusValue.FromRaw(v.ToRaw(bits).value, bits) == v <==> !(v.Reserved? && v.n <= 2)
  {
    if bits == 1 && v.Reserved? {
      assert v.n <= 1;
    }
  }

  /** Every slot content is some value's encoding, and a 1-bit list never shows `Suspended`. */
  lemma DecodedValueWritesBack(raw: bv8, bits: u8)
    requires Width(bits) && Fits(raw, bits)
    ensures StatusValue.FromRaw(raw, bits).ToRaw(bits) == Ok(raw)
    ensures StatusValue.FromRaw(raw, bits).Suspended? ==> bits == 2
  {
    if bits == 1 {
      assert raw == 0 || raw == 1;
    } else {
      assert raw == 0 || raw == 1 || raw == 2 || raw == 3;
    }
  }

  /** A value is encoded as its number, exactly if the width is 1 or 2 and has room for it. */
  lemma EncodeIsExact(v: StatusValue, bits: u8)
    ensures !Width(bits) ==> v.ToRaw(bits) == Err(UnsupportedBits(bits))
    ensures Width(bits) ==>
              v.ToRaw(bits) == if Fits(v.Raw(), bits) then Ok(v.Raw()) else Err(ValueOutOfRange(v.Raw(), bits))
    ensures v.Raw() == if v.Valid? then 0 else if v.Revoked? then 1 else if v.Suspended? then 2 else v.n
  {
  }

  /** Which number shows as which value: 2 has a name in 2-bit lists only, and no number is lost. */
  lemma ShownValue(raw: bv8, bits: u8)
    ensures var v := StatusValue.FromRaw(raw, bits);
      && v.Raw() == raw
      && (v.Valid? <==> raw == 0) && (v.Revoked? <==> raw == 1) && (v.Suspended? <==> raw == 2 && bits == 2)
  {
  }

  // --- the bit string and its slots ---

  predicate Bit(b: bv8, k: nat)
    requires k < 8
  {
    match k
    case 0 => b & 1 != 0
    case 1 => b & 2 != 0
    case 2 => b & 4 != 0
    case 3 => b & 8 != 0
    case 4 => b & 16 != 0
    case 5 => b & 32 != 0
    case 6 => b & 64 != 0
    case _ => b & 128 != 0
  }

  predicate BitAt(bytes: Bytes, k: nat)
    requires k < 8 * |bytes|
  {
    Bit(bytes[k / 8], k % 8)
  }

  function SlotCount(bytes: Bytes, bits: u8): nat
    requires Width(bits)
  {
    8 * |bytes| / bits
  }

  function SlotAt(bytes: Bytes, bits: u8, i: nat): (raw: bv8)
    requires Width(bits) && i < SlotCount(bytes, bits)
    ensures Fits(raw, bits)
  {
    if bits == 1 then
      if BitAt(bytes, i) then 1 else 0
    else
      (if BitAt(bytes, 2 * i) then 1 else 0) + (if BitAt(bytes, 2 * i + 1) then 2 else 0)
  }

  function SlotsOf(bytes: Bytes, bits: u8): (slots: seq<bv8>)
    requires Width(bits)
    ensures |slots| == SlotCount(bytes, bits)
    ensures forall i | 0 <= i < |slots| :: slots[i] == SlotAt(bytes, bits, i)
  {
    seq(SlotCount(bytes, bits), i requires 0 <= i < SlotCount(bytes, bits) => SlotAt(bytes, bits, i))
  }

  lemma ByteOfItsBits(a: bv8, b: bv8)
    requires forall k: nat | k < 8 :: Bit(a, k) == Bit(b, k)
    ensures a == b
  {
    assert Bit(a, 0) == Bit(b, 0) && Bit(a, 1) == Bit(b, 1) && Bit(a, 2) == Bit(b, 2) && Bit(a, 3) == Bit(b, 3);
    assert Bit(a, 4) == Bit(b, 4) && Bit(a, 5) == Bit(b, 5) && Bit(a, 6) == Bit(b, 6) && Bit(a, 7) == Bit(b, 7);
  }

  lemma SlotsFixBit(a: Bytes, b: Bytes, bits: u8, k: nat)
    requires Width(bits) && |a| == |b| && k < 8 * |a|
    requires SlotsOf(a, bits) == SlotsOf(b, bits)
    ensures BitAt(a, k) == BitAt(b, k)
  {
    var i := k / bits;
    assert SlotsOf(a, bits)[i] == SlotAt(a, bits, i) == SlotAt(b, bits, i) == SlotsOf(b, bits)[i];
  }

  /** The slot view loses nothing: two bit strings of one length with equal slots are equal. */
  lemma SlotsDetermineBytes(a: Bytes, b: Bytes, bits: u8)
    requires Width(bits) && |a| == |b|
    requires SlotsOf(a, bits) == SlotsOf(b, bits)
    ensures a == b
  {
    forall n | 0 <= n < |a| ensures a[n] == b[n] {
      forall k: nat | k < 8 ensures Bit(a[n], k) == Bit(b[n], k) {
        SlotsFixBit(a, b, bits, 8 * n + k);
        assert (8 * n + k) / 8 == n && (8 * n + k) % 8 == k;
      }
      ByteOfItsBits(a[n], b[n]);
    }
  }

  // --- reading and writing one byte ---

  // A shift distance inside a byte, as the machine computes it.
  function Shift(k: nat): (s: bv8)
    requires k < 8
    ensures s < 8
  {
    match k
    case 0 => 0
    case 1 => 1
    case 2 => 2
    case 3 => 3
    case 4 => 4
    case 5 => 5
    case 6 => 6
    case _ => 7
  }

  function Mask(bits: u8): bv8 {
    if bits == 1 then 1 else 3
  }

  function ReadBits(b: bv8, bits: u8, k: nat): bv8
    requires k < 8
  {
    (b >> Shift(k)) & Mask(bits)
  }

  function WriteBits(b: bv8, bits: u8, k: nat, raw: bv8): bv8
    requires k < 8
  {
    (b & !(Mask(bits) << Shift(k))) | ((raw & Mask(bits)) << Shift(k))
  }

  lemma ReadOneBit(b: bv8, k: nat)
    requires k < 8
    ensures ReadBits(b, 1, k) == if Bit(b, k) then 1 else 0
  {
  }

  lemma ReadTwoBits(b: bv8, k: nat)
    requires k < 8 && k % 2 == 0
    ensures ReadBits(b, 2, k) == (if Bit(b, k) then 1 else 0) + (if Bit(b, k + 1) then 2 else 0)
  {
    assert k == 0 || k == 2 || k == 4 || k == 6;
  }

  lemma WriteOneBit(b: bv8, k: nat, raw: bv8, j: nat)
    requires k < 8 && j < 8 && raw < 2
    ensures Bit(WriteBits(b, 1, k, raw), j) == if j == k then raw == 1 else Bit(b, j)
  {
  }

  lemma WriteTwoBits(b: bv8, k: nat, raw: bv8, j: nat)
    requires k < 8 && k % 2 == 0 && j < 8 && raw < 4
    ensures Bit(WriteBits(b, 2, k, raw), j)
         == if j == k then raw & 1 != 0 else if j == k + 1 then raw & 2 != 0 else Bit(b, j)
  {
    assert k == 0 || k == 2 || k == 4 || k == 6;
  }

  // Where a slot lies: its byte, and its first bit there.
  function ByteOf(idx: nat, bits: u8): nat {
    if bits == 1 then idx / 8 else idx / 4
  }

  function BitOf(idx: nat, bits: u8): (k: nat)
    ensures k < 8
  {
    if bits == 1 then idx % 8 else idx % 4 * 2
  }

  function WriteByte(bytes: Bytes, bits: u8, idx: nat, raw: bv8): (r: Bytes)
    requires Width(bits) && idx < SlotCount(bytes, bits)
    ensures |r| == |bytes|
  {
    bytes[ByteOf(idx, bits) := WriteBits(bytes[ByteOf(idx, bits)], bits, BitOf(idx, bits), raw)]
  }

  // Every bit of the bit string after a write, by its place in the string.
  lemma BitAfterWrite(bytes: Bytes, bits: u8, idx: nat, raw: bv8, j: nat)
    requires Width(bits) && idx < SlotCount(bytes, bits) && Fits(raw, bits) && j < 8 * |bytes|
    ensures BitAt(WriteByte(bytes, bits, idx, raw), j)
         == if j == idx * bits then raw & 1 != 0
            else if bits == 2 && j == 2 * idx + 1 then raw & 2 != 0
            else BitAt(bytes, j)
  {
    hide Bit, WriteBits, SlotAt;
    if j / 8 == ByteOf(idx, bits) {
      var b := bytes[j / 8];
      if bits == 1 {
        WriteOneBit(b, BitOf(idx, 1), raw, j % 8);
        assert raw == 1 <==> raw & 1 != 0;
      } else {
        WriteTwoBits(b, BitOf(idx, 2), raw, j % 8);
      }
    }
  }

  /** Writing bits of one byte of a list writes one slot of it. */
  lemma WriteSlot(bytes: Bytes, bits: u8, idx: nat, raw: bv8)
    requires Width(bits) && idx < SlotCount(bytes, bits) && Fits(raw, bits)
    ensures SlotsOf(WriteByte(bytes, bits, idx, raw), bits) == SlotsOf(bytes, bits)[idx := raw]
  {
    hide Bit, BitAt, WriteByte;
    var after := WriteByte(bytes, bits, idx, raw);
    forall i: nat | i < SlotCount(bytes, bits)
      ensures SlotAt(after, bits, i) == if i == idx then raw else SlotAt(bytes, bits, i)
    {
      SlotAfterWrite(bytes, bits, idx, raw, i);
    }
  }

  lemma SlotAfterWrite(bytes: Bytes, bits: u8, idx: nat, raw: bv8, i: nat)
    requires Width(bits) && idx < SlotCount(bytes, bits) && Fits(raw, bits) && i < SlotCount(bytes, bits)
    ensures SlotAt(WriteByte(bytes, bits, idx, raw), bits, i) == if i == idx then raw else SlotAt(bytes, bits, i)
  {
    hide Bit, BitAt, WriteByte;
    BitAfterWrite(bytes, bits, idx, raw, i * bits);
    if bits == 2 {
      BitAfterWrite(bytes, bits, idx, raw, 2 * i + 1);
    }
  }

  lemma ReadSlot(bytes: Bytes, bits: u8, idx: nat)
    requires Width(bits) && idx < SlotCount(bytes, bits)
    ensures ReadBits(bytes[ByteOf(idx, bits)], bits, BitOf(idx, bits)) == SlotAt(bytes, bits, idx)
  {
    hide Bit, ReadBits;
    var b := bytes[ByteOf(idx, bits)];
    if bits == 1 {
      ReadOneBit(b, BitOf(idx, 1));
    } else {
      ReadTwoBits(b, BitOf(idx, 2));
      assert 2 * idx / 8 == idx / 4 && 2 * idx % 8 == idx % 4 * 2;
      assert (2 * idx + 1) / 8 == idx / 4 && (2 * idx + 1) % 8 == idx % 4 * 2 + 1;
    }
  }

  // --- writes on the slot sequence ---

  datatype Write = Write(idx: u64, value: StatusValue)

  function WriteResult(slots: nat, bits: u8, w: Write): Result<(), StatusListError> {
    var raw :- w.value.ToRaw(bits);
    if w.idx < slots then Ok(()) else Err(IdxOutOfRange(w.idx, slots))
  }

  /** One write: the slot takes the value, or the write fails and the slots stay. */
  function Written(slots: seq<bv8>, bits: u8, w: Write): (r: seq<bv8>)
    ensures |r| == |slots|
  {
    if WriteResult(|slots|, bits, w).Ok? then slots[w.idx := w.value.Raw()] else slots
  }

  function Run(slots: seq<bv8>, bits: u8, writes: seq<Write>): (r: seq<bv8>)
    ensures |r| == |slots|
    decreases |writes|
  {
    if writes == [] then slots
    else Written(Run(slots, bits, writes[..|writes| - 1]), bits, writes[|writes| - 1])
  }

  predicate Succeeds(slots: nat, bits: u8, w: Write) {
    WriteResult(slots, bits, w).Ok?
  }

  predicate IsLastWriteTo(slots: nat, bits: u8, writes: seq<Write>, i: nat, n: nat) {
    && n < |writes|
    && writes[n].idx == i
    && Succeeds(slots, bits, writes[n])
    && forall m | n < m < |writes| :: writes[m].idx == i ==> !Succeeds(slots, bits, writes[m])
  }

  predicate NeverWritten(slots: nat, bits: u8, writes: seq<Write>, i: nat) {
    forall m | 0 <= m < |writes| :: writes[m].idx == i ==> !Succeeds(slots, bits, writes[m])
  }

  lemma {:induction false} LastWriteStays(slots: seq<bv8>, bits: u8, writes: seq<Write>, i: nat, n: nat)
    requires i < |slots| && IsLastWriteTo(|slots|, bits, writes, i, n)
    ensures Run(slots, bits, writes)[i] == writes[n].value.Raw()
    decreases |writes|
  {
    hide StatusValue.Raw, StatusValue.ToRaw;
    var front, last := writes[..|writes| - 1], writes[|writes| - 1];
    if n == |front| {
    } else {
      assert last.idx == i ==> !Succeeds(|slots|, bits, last);
      assert IsLastWriteTo(|slots|, bits, front, i, n) by {
        forall m | n < m < |front| ensures writes[m].idx == i ==> !Succeeds(|slots|, bits, writes[m]) {
        }
      }
      LastWriteStays(slots, bits, front, i, n);
    }
  }

  /**
   After any run of writes a slot reads as the last value successfully written to it, with a
   `Reserved` number below the width's named range read back under its name.
   */
  lemma LastWriteIsRead(slots: seq<bv8>, bits: u8, writes: seq<Write>, i: nat, n: nat)
    requires i < |slots| && IsLastWriteTo(|slots|, bits, writes, i, n)
    ensures var read, written := StatusValue.FromRaw(Run(slots, bits, writes)[i], bits), writes[n].value;
      read.Raw() == written.Raw() && (read == written <==> !(written.Reserved? && written.n <= 2))
  {
    LastWriteStays(slots, bits, writes, i, n);
    EncodedValueReadsBack(writes[n].value, bits);
  }

  lemma {:induction false} UnwrittenSlotStays(slots: seq<bv8>, bits: u8, writes: seq<Write>, i: nat)
    requires i < |slots| && NeverWritten(|slots|, bits, writes, i)
    ensures Run(slots, bits, writes)[i] == slots[i]
    decreases |writes|
  {
    if writes == [] {
    } else {
      var last := writes[|writes| - 1];
      assert last.idx == i ==> !Succeeds(|slots|, bits, last);
      UnwrittenSlotStays(slots, bits, writes[..|writes| - 1], i);
    }
  }

  // --- JSON forms ---

  datatype StatusListPointer = StatusListPointer(kind: string, idx: u64, uri: string)

  function PointerFromJson(v: Json): Result<StatusListPointer, StatusListError> {
    if !v.Obj? then Err(InvalidFieldType("status_list"))
    else
      var kind :- RequiredString(v, "type");
      var idx := v.Get("idx");
      if idx.None? then Err(MissingField("idx"))
      else if idx.value.AsU64().None? then Err(InvalidFieldType("idx"))
      else
        var uri :- RequiredString(v, "uri");
        Ok(StatusListPointer(kind, idx.value.AsU64().value, uri))
  }

  function RequiredString(v: Json, key: string): Result<string, StatusListError> {
    match v.Get(key)
    case None => Err(MissingField(key))
    case Some(member) => if member.Str? then Ok(member.s) else Err(InvalidFieldType(key))
  }

  function PointerToJson(p: StatusListPointer): Json {
    Obj(map["type" := Str(p.kind), "idx" := Int(p.idx), "uri" := Str(p.uri)])
  }

  lemma ParsePrintedPointer(p: StatusListPointer)
    ensures PointerFromJson(PointerToJson(p)) == Ok(p)
  {
    var v := PointerToJson(p);
    assert v.Get("type") == Some(Str(p.kind)) && v.Get("idx") == Some(Int(p.idx)) && v.Get("uri") == Some(Str(p.uri));
  }

  /** The width of a list object; an absent member means 1. */
  function BitsFromJson(v: Json): Result<u8, StatusListError> {
    match v.Get("bits")
    case None => Ok(1)
    case Some(b) =>
      var n := b.AsU64();
      if n.None? || n.value > 255 then Err(InvalidFieldType("bits")) else Ok(n.value)
  }

  function ListFromJson(w: Wire, v: Json): (r: Result<(u8, Bytes), StatusListError>)
    ensures r.Ok? ==> Width(r.value.0)
  {
    if !v.Obj? then Err(InvalidFieldType("status_list"))
    else
      var bits :- BitsFromJson(v);
      if bits != 1 && bits != 2 then Err(UnsupportedBits(bits))
      else
        var lst :- RequiredString(v, "lst");
        match w.decode64(lst)
        case None => Err(InvalidBase64)
        case Some(compressed) =>
          match w.inflate(compressed)
          case None => Err(Decompress)
          case Some(bytes) => Ok((bits, bytes))
  }

  /** The width a list object states: the number under `bits`, or 1 without that member. */
  predicate StatesWidth(v: Json, bits: u8) {
    if v.Get("bits").None? then bits == 1 else v.Get("bits") == Some(Int(bits)) && (bits == 1 || bits == 2)
  }

  /** Exactly the objects with a width of 1 or 2 and a compressed bit string are lists. */
  lemma ListIsExact(w: Wire, v: Json, bits: u8, bytes: Bytes)
    ensures ListFromJson(w, v) == Ok((bits, bytes)) <==>
            StatesWidth(v, bits) && exists lst, compressed ::
                v.Get("lst") == Some(Str(lst)) && w.decode64(lst) == Some(compressed)
                && w.inflate(compressed) == Some(bytes)
  {
  }

  /** And exactly the objects with these three members are pointers. */
  lemma PointerIsExact(v: Json, p: StatusListPointer)
    ensures PointerFromJson(v) == Ok(p) <==>
            v.Get("type") == Some(Str(p.kind)) && v.Get("idx") == Some(Int(p.idx)) && v.Get("uri") == Some(Str(p.uri))
  {
  }

  /** What is wrong with a list object: its type, its width, or its compressed bit string. */
  predicate ListFails(w: Wire, v: Json, error: StatusListError) {
    var bits, lst := v.Get("bits"), v.Get("lst");
    if !v.Obj? then error == InvalidFieldType("status_list")
    else if bits.Some? && !(bits.value.Int? && 0 <= bits.value.n <= 255) then error == InvalidFieldType("bits")
    else if bits.Some? && bits.value.n != 1 && bits.value.n != 2 then error == UnsupportedBits(bits.value.n)
    else if lst.None? then error == MissingField("lst")
    else if !lst.value.Str? then error == InvalidFieldType("lst")
    else if w.decode64(lst.value.s).None? then error == InvalidBase64
    else w.inflate(w.decode64(lst.value.s).value).None? && error == Decompress
  }

  lemma ListErrorIsExact(w: Wire, v: Json, error: StatusListError)
    ensures ListFromJson(w, v) == Err(error) <==> ListFails(w, v, error)
  {
  }

  predicate TextFails(v: Json, key: string, error: StatusListError) {
    if v.Get(key).None? then error == MissingField(key)
    else !v.Get(key).value.Str? && error == InvalidFieldType(key)
  }

  predicate PointerFails(v: Json, error: StatusListError) {
    if !v.Obj? then error == InvalidFieldType("status_list")
    else if v.GetStr("type").None? then TextFails(v, "type", error)
    else if v.Get("idx").None? then error == MissingField("idx")
    else if v.GetU64("idx").None? then error == InvalidFieldType("idx")
    else TextFails(v, "uri", error)
  }

  lemma PointerErrorIsExact(v: Json, error: StatusListError)
    ensures PointerFromJson(v) == Err(error) <==> PointerFails(v, error)
  {
  }

  function ListToJson(w: Wire, bits: u8, bytes: Bytes): Json {
    Obj(map["bits" := Int(bits), "lst" := Str(w.encode64(w.deflate(bytes)))])
  }

  /** A printed list parses back to the same width and bytes. */
  lemma ParsePrintedList(w: Wire, bits: u8, bytes: Bytes)
    requires Lawful(w) && Width(bits)
    ensures ListFromJson(w, ListToJson(w, bits, bytes)) == Ok((bits, bytes))
  {
    var v := ListToJson(w, bits, bytes);
    assert v.Get("bits") == Some(Int(bits)) && v.Get("lst") == Some(Str(w.encode64(w.deflate(bytes))));
  }

  // --- the list ---

  class StatusList {
    const bits: u8
    const bytes: array<bv8>

    constructor (bits: u8, bytes: array<bv8>)
      ensures this.bits == bits && this.bytes == bytes
    {
      this.bits := bits;
      this.bytes := bytes;
    }

    predicate Valid() {
      Width(bits)
    }

    ghost function Slots(): seq<bv8>
      requires Valid()
      reads bytes
    {
      SlotsOf(bytes[..], bits)
    }

    /** An all-zero list of exactly the capacity asked for. */
    static method New(bits: u8, capacity: u64) returns (r: Result<StatusList, StatusListError>)
      ensures !Width(bits) ==> r == Err(UnsupportedBits(bits))
      ensures Width(bits) ==>
                (r.Ok? <==> capacity * bits < U64_LIMIT && capacity * bits % 8 == 0)
                && (r.Err? ==> r.error == InvalidCapacity(capacity, bits))
      ensures r.Ok? ==>
                && fresh(r.value) && fresh(r.value.bytes)
                && r.value.Valid() && r.value.bits == bits
                && r.value.Len() == capacity
                && r.value.Slots() == seq(capacity, _ => 0)
    {
      if bits != 1 && bits != 2 {
        return Err(UnsupportedBits(bits));
      }
      var totalBits := capacity * bits;
      if totalBits >= U64_LIMIT || totalBits % 8 != 0 {
        return Err(InvalidCapacity(capacity, bits));
      }
      var bytes := new bv8[totalBits / 8](_ => 0);
      var list := new StatusList(bits, bytes);
      forall i | 0 <= i < capacity ensures SlotAt(bytes[..], bits, i) == 0 {
        assert bytes[..][i * bits / 8] == 0;
      }
      assert list.Slots() == seq(capacity, _ => 0);
      return Ok(list);
    }

    /** Wraps a bit string as it is. */
    static method FromRaw(bits: u8, bytes: array<bv8>) returns (r: Result<StatusList, StatusListError>)
      ensures !Width(bits) ==> r == Err(UnsupportedBits(bits))
      ensures Width(bits) ==>
                r.Ok? && fresh(r.value) && r.value.Valid() && r.value.bits == bits && r.value.bytes == bytes
    {
      if bits != 1 && bits != 2 {
        return Err(UnsupportedBits(bits));
      }
      var list := new StatusList(bits, bytes);
      return Ok(list);
    }

    /** Decodes the `status_list` object of a status list token. */
    static method TryFrom(w: Wire, v: Json) returns (r: Result<StatusList, StatusListError>)
      ensures ListFromJson(w, v).Err? ==> r == Err(ListFromJson(w, v).error)
      ensures ListFromJson(w, v).Ok? ==>
                && r.Ok? && fresh(r.value) && fresh(r.value.bytes) && r.value.Valid()
                && (r.value.bits, r.value.bytes[..]) == ListFromJson(w, v).value
    {
      var decoded :- ListFromJson(w, v);
      var (bits, content) := decoded;
      var bytes := new bv8[|content|](i requires 0 <= i < |content| => content[i]);
      var list := new StatusList(bits, bytes);
      assert list.bytes[..] == content;
      return Ok(list);
    }

    function Len(): (n: nat)
      requires Valid()
      reads bytes
      ensures n == |Slots()|
    {
      bytes.Length * (8 / bits)
    }

    /** Reads fail exactly past the end, and otherwise show the slot. */
    function ValueAt(idx: u64): (r: Result<StatusValue, StatusListError>)
      requires Valid()
      reads bytes
      ensures r == if idx < |Slots()| then Ok(StatusValue.FromRaw(Slots()[idx], bits))
                   else Err(IdxOutOfRange(idx, |Slots()|))
    {
      if bits == 1 then
        if idx / 8 >= bytes.Length then Err(IdxOutOfRange(idx, Len()))
        else
          ReadSlot(bytes[..], 1, idx);
          Ok(StatusValue.FromRaw(ReadBits(bytes[idx / 8], 1, idx % 8), bits))
      else
        if idx / 4 >= bytes.Length then Err(IdxOutOfRange(idx, Len()))
        else
          ReadSlot(bytes[..], 2, idx);
          Ok(StatusValue.FromRaw(ReadBits(bytes[idx / 4], 2, idx % 4 * 2), bits))
    }

    /** Writes in place: one slot changes on success, no byte changes on failure. */
    method SetAt(idx: u64, value: StatusValue) returns (r: Result<(), StatusListError>)
      requires Valid()
      modifies bytes
      ensures r == WriteResult(old(|Slots()|), bits, Write(idx, value))
      ensures Slots() == Written(old(Slots()), bits, Write(idx, value))
      ensures r.Err? ==> bytes[..] == old(bytes[..])
      ensures r.Ok? ==> forall i | 0 <= i < bytes.Length && i != ByteOf(idx, bits) :: bytes[i] == old(bytes[i])
    {
      hide Bit, BitAt, SlotAt, WriteBits;
      var raw :- value.ToRaw(bits);
      var slots := Len();
      ghost var before := bytes[..];
      if bits == 1 {
        var byteIdx := idx / 8;
        if byteIdx >= bytes.Length {
          return Err(IdxOutOfRange(idx, slots));
        }
        bytes[byteIdx] := WriteBits(bytes[byteIdx], 1, idx % 8, raw);
      } else {
        var byteIdx := idx / 4;
        if byteIdx >= bytes.Length {
          return Err(IdxOutOfRange(idx, slots));
        }
        bytes[byteIdx] := WriteBits(bytes[byteIdx], 2, idx % 4 * 2, raw);
      }
      assert bytes[..] == WriteByte(before, bits, idx, raw);
      WriteSlot(before, bits, idx, raw);
      return Ok(());
    }
  }

  /** Any run of writes on a list object, and what every slot of it reads afterwards. */
  method ApplyWrites(list: StatusList, writes: seq<Write>) returns (results: seq<Result<(), StatusListError>>)
    requires list.Valid()
    modifies list.bytes
    ensures list.Slots() == Run(old(list.Slots()), list.bits, writes)
    ensures |results| == |writes|
    ensures forall n | 0 <= n < |writes| :: results[n] == WriteResult(old(|list.Slots()|), list.bits, writes[n])
    ensures forall i: u64, n: nat | i < old(|list.Slots()|)
               && IsLastWriteTo(old(|list.Slots()|), list.bits, writes, i, n) ::
              list.ValueAt(i).Ok? && list.ValueAt(i).value.Raw() == writes[n].value.Raw()
    ensures forall i: u64 | i < old(|list.Slots()|) && NeverWritten(old(|list.Slots()|), list.bits, writes, i) ::
              list.ValueAt(i) == old(list.ValueAt(i))
  {
    ghost var before, bits := list.Slots(), list.bits;
    results := [];
    for n := 0 to |writes|
      invariant list.Slots() == Run(before, bits, writes[..n])
      invariant |results| == n
      invariant forall m | 0 <= m < n :: results[m] == WriteResult(|before|, bits, writes[m])
    {
      assert writes[..n + 1][..n] == writes[..n];
      var result := list.SetAt(writes[n].idx, writes[n].value);
      results := results + [result];
    }
    assert writes[..|writes|] == writes;
    forall i: u64, n: nat | i < |before| && IsLastWriteTo(|before|, bits, writes, i, n)
      ensures list.ValueAt(i).Ok? && list.ValueAt(i).value.Raw() == writes[n].value.Raw()
    {
      LastWriteIsRead(before, bits, writes, i, n);
    }
    forall i: u64 | i < |before| && NeverWritten(|before|, bits, writes, i)
      ensures list.ValueAt(i) == old(list.ValueAt(i))
    {
      UnwrittenSlotStays(before, bits, writes, i);
    }
  }
}
