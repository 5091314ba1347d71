/**
 Numbers and typed values as bytes
 (frameworks/innerkitsimpl/src/adaptor/distributed_object_impl.cpp and include/common/string_utils.h).
 */
module ByteCodec {
  import opened Types

  function Pow256(n: nat): (r: nat)
    ensures r > 0
  {
    if n == 0 then 1 else 256 * Pow256(n - 1)
  }

  /** The number that the bytes denote, most significant byte first. */
  function BigEndian(s: Bytes): nat {
    if s == [] then 0 else 256 * BigEndian(s[..|s| - 1]) + s[|s| - 1]
  }

  /** The number that the bytes denote in the memory of the (little-endian) host. */
  function LittleEndian(s: Bytes): nat {
    if s == [] then 0 else s[0] + 256 * LittleEndian(s[1..])
  }

  /** The unique big-endian form of `val` modulo 256^width; see `ToBigEndianMeaning`. */
  function ToBigEndian(val: nat, width: nat): Bytes {
    if width == 0 then [] else ToBigEndian(val / 256, width - 1) + [val % 256]
  }

  function Max(a: nat, b: nat): nat {
    if a < b then b else a
  }

  // ---- Meaning of the big-endian form ----

  lemma AtLeastOnce(x: int, m: nat)
    requires x >= 1
    ensures x * m >= m
  {
  }

  lemma ModUnique(val: nat, m: nat, q: nat, low: nat)
    requires m > 0 && low < m && val == q * m + low
    ensures val % m == low
  {
    var d := val / m;
    assert val == d * m + val % m;
    assert (d - q) * m == d * m - q * m && (q - d) * m == q * m - d * m;
    if d > q {
      AtLeastOnce(d - q, m);
      assert false;
    } else if d < q {
      AtLeastOnce(q - d, m);
      assert false;
    }
  }

  lemma DropLowByte(val: nat, p: nat)
    requires p > 0
    ensures 256 * (val / 256 % p) + val % 256 == val % (256 * p)
  {
    var hi := val / 256;
    var q, r := hi / p, hi % p;
    assert hi == q * p + r;
    assert 256 * (q * p) == q * (256 * p);
    ModUnique(val, 256 * p, q, 256 * r + val % 256);
  }

  lemma {:induction false} ToBigEndianMeaning(val: nat, width: nat)
    ensures |ToBigEndian(val, width)| == width
    ensures BigEndian(ToBigEndian(val, width)) == val % Pow256(width)
  {
    if width > 0 {
      ToBigEndianMeaning(val / 256, width - 1);
      DropLowByte(val, Pow256(width - 1));
      var s := ToBigEndian(val, width);
      assert s[..width - 1] == ToBigEndian(val / 256, width - 1);
    }
  }

  /** Equal numbers of equal width have equal bytes, so the meaning above leaves no other form. */
  lemma {:induction false} BigEndianInjective(s: Bytes, t: Bytes)
    requires |s| == |t| && BigEndian(s) == BigEndian(t)
    ensures s == t
  {
    if s != [] {
      var n := |s| - 1;
      BigEndianInjective(s[..n], t[..n]);
      assert s == s[..n] + [s[n]] && t == t[..n] + [t[n]];
    }
  }

  /** Two 64-bit loads are written alike exactly when they agree in their low `width` bytes. */
  lemma LowBytesDecide(a: nat, b: nat, width: nat)
    ensures ToBigEndian(a, width) == ToBigEndian(b, width) <==> a % Pow256(width) == b % Pow256(width)
  {
    ToBigEndianMeaning(a, width);
    ToBigEndianMeaning(b, width);
    if a % Pow256(width) == b % Pow256(width) {
      BigEndianInjective(ToBigEndian(a, width), ToBigEndian(b, width));
    }
  }

  lemma {:induction false} BigEndianBound(s: Bytes)
    ensures BigEndian(s) < Pow256(|s|)
  {
    if s != [] {
      BigEndianBound(s[..|s| - 1]);
    }
  }

  /** The 64-bit load shifted right by `8 * n` bits. */
  function ShiftRight(val: nat, n: nat): nat {
    if n == 0 then val else ShiftRight(val / 256, n - 1)
  }

  /** Byte `i` of the big-endian form is the load shifted right by `(width - i - 1) * 8` and cut to a byte. */
  lemma {:induction false} ToBigEndianAt(val: nat, width: nat, i: nat)
    requires i < width
    ensures |ToBigEndian(val, width)| == width
    ensures ToBigEndian(val, width)[i] == ShiftRight(val, width - i - 1) % 256
  {
    ToBigEndianMeaning(val, width);
    ToBigEndianMeaning(val / 256, width - 1);
    if i < width - 1 {
      ToBigEndianAt(val / 256, width - 1, i);
    }
  }

  // ---- PutNum and GetNum ----

  /**
   Writes the low `valLen` bytes of the 64-bit load `val` at `offset`, growing the buffer with zeroes
   if need be. The source shifts by up to 56 bits and keeps offsets in 32 bits.
   */
  method PutNum(val: nat, offset: nat, valLen: nat, data: Bytes) returns (out: Bytes)
    requires valLen <= 8 && offset + valLen < 0x1_0000_0000
    ensures |out| == Max(|data|, offset + valLen)
    ensures out[offset..offset + valLen] == ToBigEndian(val, valLen)
    ensures BigEndian(out[offset..offset + valLen]) == val % Pow256(valLen)
    ensures forall k | 0 <= k < |out| && !(offset <= k < offset + valLen) :: out[k] == if k < |data| then data[k] else 0
  {
    out := data;
    var len := valLen + offset;
    if len > |data| {
      out := out + seq(len - |data|, _ => 0);
    }
    ToBigEndianMeaning(val, valLen);
    ghost var was := out;
    var i := 0;
    while i < valLen
      invariant i <= valLen && |out| == |was|
      invariant forall k | 0 <= k < |out| && !(offset <= k < offset + i) :: out[k] == was[k]
      invariant forall k | 0 <= k < i :: out[offset + k] == ToBigEndian(val, valLen)[k]
    {
      ToBigEndianAt(val, valLen, i);
      out := out[offset + i := ShiftRight(val, valLen - i - 1) % 256];
      i := i + 1;
    }
    assert out[offset..offset + valLen] == ToBigEndian(val, valLen);
  }

  /** Reads `valLen` bytes at `offset` into host memory, or reports that the buffer is too short. */
  method GetNum(data: Bytes, offset: nat, valLen: nat) returns (status: StatusCode, value: Bytes)
    requires offset + valLen < 0x1_0000_0000
    ensures status == if |data| < offset + valLen then ERR_DATA_LEN else SUCCESS
    ensures status == SUCCESS ==>
              |value| == valLen && LittleEndian(value) == BigEndian(data[offset..offset + valLen])
  {
    value := [];
    var len := offset + valLen;
    if |data| < len {
      return ERR_DATA_LEN, value;
    }
    var i := 0;
    while i < valLen
      invariant i <= valLen && |value| == i
      invariant forall k | 0 <= k < i :: value[k] == data[len - 1 - k]
    {
      value := value + [data[len - 1 - i]];
      i := i + 1;
    }
    ReversedValue(value, data[offset..len]);
    status := SUCCESS;
  }

  lemma {:induction false} ReversedValue(little: Bytes, big: Bytes)
    requires |little| == |big|
    requires forall k | 0 <= k < |little| :: little[k] == big[|big| - 1 - k]
    ensures LittleEndian(little) == BigEndian(big)
  {
    if little != [] {
      ReversedValue(little[1..], big[..|big| - 1]);
    }
  }

  // ---- Typed values ----

  datatype Type = TYPE_STRING | TYPE_BOOLEAN | TYPE_DOUBLE | TYPE_COMPLEX

  /** A 64-bit pattern; doubles are never interpreted. */
  type Bits64 = x: int | 0 <= x < 0x1_0000_0000_0000_0000

  function TypeTag(t: Type): Byte {
    match t
    case TYPE_STRING => 0
    case TYPE_BOOLEAN => 1
    case TYPE_DOUBLE => 2
    case TYPE_COMPLEX => 3
  }

  function EncodeDouble(value: Bits64): Bytes {
    [TypeTag(TYPE_DOUBLE)] + ToBigEndian(value, 8)
  }

  function EncodeBoolean(value: bool): Bytes {
    [TypeTag(TYPE_BOOLEAN), if value then 1 else 0]
  }

  function EncodeString(value: Text): Bytes {
    [TypeTag(TYPE_STRING)] + value
  }

  function EncodeComplex(value: Bytes): Bytes {
    [TypeTag(TYPE_COMPLEX)] + value
  }

  /** The type byte as stored; a byte above 3 is no type of the enumeration. */
  function DecodeType(data: Bytes): Option<Byte> {
    if data == [] then None else Some(data[0])
  }

  function DecodeDouble(data: Bytes): Option<Bits64> {
    if |data| < 9 then None else
    BigEndianBound(data[1..9]);
    assert Pow256(8) == 0x1_0000_0000_0000_0000;
    Some(BigEndian(data[1..9]))
  }

  function DecodeBoolean(data: Bytes): Option<bool> {
    if |data| < 2 then None else Some(data[1] != 0)
  }

  /** A string of length zero cannot be read back. */
  function DecodeString(data: Bytes): Option<Text> {
    if |data| <= 1 then None else Some(data[1..])
  }

  lemma EightBytes(value: Bits64)
    ensures |ToBigEndian(value, 8)| == 8 && BigEndian(ToBigEndian(value, 8)) == value
  {
    ToBigEndianMeaning(value, 8);
    assert Pow256(8) == 0x1_0000_0000_0000_0000;
  }

  lemma DoubleRoundTrip(value: Bits64)
    ensures DecodeType(EncodeDouble(value)) == Some(TypeTag(TYPE_DOUBLE))
    ensures DecodeDouble(EncodeDouble(value)) == Some(value)
  {
    EightBytes(value);
    assert EncodeDouble(value)[1..9] == ToBigEndian(value, 8);
  }

  lemma BooleanRoundTrip(value: bool)
    ensures DecodeType(EncodeBoolean(value)) == Some(TypeTag(TYPE_BOOLEAN))
    ensures DecodeBoolean(EncodeBoolean(value)) == Some(value)
  {
  }

  /** Strings come back exactly when they are not empty. */
  lemma StringRoundTrip(value: Text)
    ensures DecodeType(EncodeString(value)) == Some(TypeTag(TYPE_STRING))
    ensures DecodeString(EncodeString(value)) == Some(value) <==> value != []
    ensures value == [] ==> DecodeString(EncodeString(value)) == None
  {
  }
}
