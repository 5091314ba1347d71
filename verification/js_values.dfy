/**
 From a JavaScript property value to stored bytes and back
 (interfaces/jskits/distributed_data_object.js:129-171 and
 frameworks/jskitsimpl/src/adaptor/js_distributedobject.cpp).

 An object or array is identified with its JSON text, so `JSON.stringify` and `JSON.parse` are
 inverse by construction.
 */
module JsValues {
  import opened Types
  import opened Sequences
  import opened ByteCodec
  import opened DistributedObjects

  datatype JsValue =
    | Undefined
    | Null
    | Bool(b: bool)
    | Number(bits: Bits64)
    | Str(text: Text)
    | Object(json: Text)        // an object or array, with its JSON text
    | TypedArray(bytes: Bytes)  // a Uint8Array
    | Other(id: nat)            // a function, symbol or bigint

  /** What crosses from JavaScript to native code and back. */
  datatype Napi =
    | NUndefined
    | NBool(b: bool)
    | NNumber(bits: Bits64)
    | NString(text: Text)
    | NBytes(bytes: Bytes)
    | NOther(id: nat)

  const STRING_TYPE: Text := [0x5B, 0x53, 0x54, 0x52, 0x49, 0x4E, 0x47, 0x5D]         // [STRING]
  const COMPLEX_TYPE: Text := [0x5B, 0x43, 0x4F, 0x4D, 0x50, 0x4C, 0x45, 0x58, 0x5D]  // [COMPLEX]
  const NULL_TYPE: Text := [0x5B, 0x4E, 0x55, 0x4C, 0x4C, 0x5D]                       // [NULL]
  const JSON_NULL: Text := [0x6E, 0x75, 0x6C, 0x6C]                                   // null
  const KEY_SIZE: nat := 64

  // ---- The tag added and stripped by the property accessors ----

  function Decimal(n: nat): Text {
    (if n < 10 then [] else Decimal(n / 10)) + [0x30 + n % 10]
  }

  /** The members of the JSON text of a Uint8Array: its indices are property names. */
  function ArrayMembers(bytes: Bytes): Text {
    if bytes == [] then [] else
    var n := |bytes| - 1;
    ArrayMembers(bytes[..n]) + (if n == 0 then [] else [0x2C]) + [0x22] + Decimal(n) + [0x22, 0x3A] + Decimal(bytes[n])
  }

  function Stringify(bytes: Bytes): Text {
    [0x7B] + ArrayMembers(bytes) + [0x7D]
  }

  function Parse(json: Text): JsValue {
    if json == JSON_NULL then Null else Object(json)
  }

  /**
   The argument of `object.put`. The type of null is "object" too, so null takes the first branch of
   the setter and is sent as the JSON text null.
   */
  function SetterArgument(v: JsValue): Napi {
    match v
    case Null => NString(COMPLEX_TYPE + JSON_NULL)
    case Object(json) => NString(COMPLEX_TYPE + json)
    case TypedArray(bytes) => NString(COMPLEX_TYPE + Stringify(bytes))
    case Str(text) => NString(STRING_TYPE + text)
    case Bool(b) => NBool(b)
    case Number(bits) => NNumber(bits)
    case Undefined => NUndefined
    case Other(id) => NOther(id)
  }

  function GetterResult(n: Napi): JsValue {
    match n
    case NString(text) =>
      if STRING_TYPE <= text then Str(text[|STRING_TYPE|..])
      else if COMPLEX_TYPE <= text then Parse(text[|COMPLEX_TYPE|..])
      else if NULL_TYPE <= text then Null
      else Str(text)
    case NBool(b) => Bool(b)
    case NNumber(bits) => Number(bits)
    case NBytes(bytes) => TypedArray(bytes)
    case NUndefined => Undefined
    case NOther(id) => Other(id)
  }

  // ---- Native put and get ----

  /** A C string ends at its first NUL. */
  function CString(s: Text): Text {
    if s == [] || s[0] == 0 then [] else [s[0]] + CString(s[1..])
  }

  /** The key as native code sees it: at most 63 bytes, cut at a NUL. */
  function NativeKey(key: Text): Text {
    CString(if |key| < KEY_SIZE then key else key[..KEY_SIZE - 1])
  }

  /** Whether the database answers the two reads that a `get` makes: of the type and of the value. */
  datatype ReadAnswer = ReadAnswer(typeOk: bool, valueOk: bool)

  const ANSWERED := ReadAnswer(true, true)

  /** The table of a session and the list of properties set to undefined. */
  datatype Props = Props(entries: map<Bytes, Bytes>, undefinedProps: seq<Text>) {

    /** `JSPut`; `dbOk` tells whether the database accepts the entry. */
    function Put(key: Text, v: Napi, dbOk: bool): Props {
      var k := NativeKey(key);
      if v.NUndefined? then
        this.(undefinedProps := if k in undefinedProps then undefinedProps else undefinedProps + [k])
      else
        Props(DoPut(k, v, dbOk), WithoutFirst(undefinedProps, k))
    }

    function DoPut(k: Text, v: Napi, dbOk: bool): map<Bytes, Bytes> {
      var data := PutBytes(v);
      if data.None? || !dbOk then entries else entries[FieldKey(k) := data.value]
    }

    /** `JSGet`. */
    function Get(key: Text, answer: ReadAnswer): Napi {
      var k := NativeKey(key);
      if k in undefinedProps then NUndefined else DoGet(k, answer)
    }

    function DoGet(k: Text, answer: ReadAnswer): Napi {
      GetBytes(Stored(k), answer)
    }

    function Stored(k: Text): Option<Bytes> {
      if FieldKey(k) in entries then Some(entries[FieldKey(k)]) else None
    }

    /** Assigning to and reading a property of the joined object. */
    function Write(key: Text, v: JsValue, dbOk: bool): Props {
      Put(key, SetterArgument(v), dbOk)
    }

    function Read(key: Text, answer: ReadAnswer): JsValue {
      GetterResult(Get(key, answer))
    }
  }

  /** The bytes that `DoPut` stores, if it stores any. */
  function PutBytes(v: Napi): Option<Bytes> {
    match v
    case NBool(b) => Some(EncodeBoolean(b))
    case NNumber(bits) => Some(EncodeDouble(bits))
    case NString(text) => Some(EncodeString(CString(text)))
    case NBytes(bytes) => if bytes == [] then None else Some(EncodeComplex(bytes))
    case NUndefined => None
    case NOther(_) => None
  }

  /**
   What `DoGet` makes of stored bytes. A missing value, an unknown type byte and a value that is too
   short read as undefined. When the type cannot be read the value is taken for a string.
   */
  function GetBytes(stored: Option<Bytes>, answer: ReadAnswer): Napi {
    if stored.None? || !answer.valueOk then NUndefined else
    var t := if answer.typeOk then DecodeType(stored.value) else None;
    if t == None || t == Some(TypeTag(TYPE_STRING)) then
      var s := DecodeString(stored.value);
      if s.Some? then NString(s.value) else NUndefined
    else if t == Some(TypeTag(TYPE_DOUBLE)) then
      var d := DecodeDouble(stored.value);
      if d.Some? then NNumber(d.value) else NUndefined
    else if t == Some(TypeTag(TYPE_BOOLEAN)) then
      var b := DecodeBoolean(stored.value);
      if b.Some? then NBool(b.value) else NUndefined
    else if t == Some(TypeTag(TYPE_COMPLEX)) then NBytes(stored.value)
    else NUndefined
  }

  // ---- What a write makes readable ----

  /** The value read after `v` has been written and accepted. */
  function ReadBack(v: JsValue): JsValue {
    match v
    case Str(text) => Str(CString(text))
    case Object(json) => Parse(CString(json))
    case TypedArray(bytes) => Parse(CString(Stringify(bytes)))
    case _ => v
  }

  // ---- The text of a typed array ----

  predicate IsDigit(c: Byte) {
    0x30 <= c <= 0x39
  }

  /** The number that digits denote. */
  function DecimalValue(digits: Text): int {
    if digits == [] then 0 else 10 * DecimalValue(digits[..|digits| - 1]) + (digits[|digits| - 1] as int - 0x30)
  }

  lemma {:induction false} DecimalMeaning(n: nat)
    ensures Decimal(n) != [] && (forall c | c in Decimal(n) :: IsDigit(c))
    ensures DecimalValue(Decimal(n)) == n
    ensures n > 0 ==> Decimal(n)[0] != 0x30
    ensures n == 0 ==> Decimal(n) == [0x30]
  {
    if n >= 10 {
      DecimalMeaning(n / 10);
    }
    var front := if n < 10 then [] else Decimal(n / 10);
    assert Decimal(n)[..|Decimal(n)| - 1] == front;
  }

  /** One member of a JSON object: a quoted index, a colon and a value. */
  function Member(i: nat, value: Byte): Text {
    [0x22] + Decimal(i) + [0x22, 0x3A] + Decimal(value)
  }

  lemma {:induction false} MembersNoNul(bytes: Bytes)
    ensures 0 !in ArrayMembers(bytes)
  {
    if bytes != [] {
      var n := |bytes| - 1;
      MembersNoNul(bytes[..n]);
      DecimalMeaning(n);
      DecimalMeaning(bytes[n]);
    }
  }

  /** Each byte adds a member, after a comma unless it is the first; braces go around the whole. */
  lemma StringifyGrows(bytes: Bytes, value: Byte)
    ensures Stringify([]) == [0x7B, 0x7D]
    ensures Stringify(bytes + [value]) ==
            Stringify(bytes)[..|Stringify(bytes)| - 1]
            + (if bytes == [] then [] else [0x2C]) + Member(|bytes|, value) + [0x7D]
  {
    var more := bytes + [value];
    var comma: Text := if bytes == [] then [] else [0x2C];
    assert more[..|bytes|] == bytes && more[|bytes|] == value;
    assert Stringify(bytes)[..|Stringify(bytes)| - 1] == [0x7B] + ArrayMembers(bytes);
    assert ArrayMembers(more) == ArrayMembers(bytes) + comma + Member(|bytes|, value);
  }

  /** A typed array comes back as the object of that text, whole. */
  lemma TypedArrayReadsBack(bytes: Bytes)
    ensures ReadBack(TypedArray(bytes)) == Object(Stringify(bytes))
  {
    MembersNoNul(bytes);
    CStringNoNul(Stringify(bytes));
    assert Stringify(bytes)[0] != JSON_NULL[0];
  }

  /**
   The bytes on the wire, for each kind of value: a type byte, then a double in eight big-endian bytes, a
   bool in one, or a text that starts with [STRING] or [COMPLEX] and ends before the first NUL.
   */
  lemma StoredForm(v: JsValue)
    ensures var stored := PutBytes(SetterArgument(v));
            match v
            case Undefined => stored == None
            case Other(_) => stored == None
            case Bool(b) => stored == Some([1, if b then 1 else 0])
            case Number(bits) =>
              && stored.Some? && |stored.value| == 9 && stored.value[0] == 2
              && BigEndian(stored.value[1..]) == bits
            case Str(text) =>
              stored == Some([0] + ([0x5B, 0x53, 0x54, 0x52, 0x49, 0x4E, 0x47, 0x5D] + CString(text)))
            case Object(json) =>
              stored == Some([0] + ([0x5B, 0x43, 0x4F, 0x4D, 0x50, 0x4C, 0x45, 0x58, 0x5D] + CString(json)))
            case TypedArray(bytes) =>
              stored == Some([0] + ([0x5B, 0x43, 0x4F, 0x4D, 0x50, 0x4C, 0x45, 0x58, 0x5D] + Stringify(bytes)))
            case Null =>
              stored == Some([0] + ([0x5B, 0x43, 0x4F, 0x4D, 0x50, 0x4C, 0x45, 0x58, 0x5D] + [0x6E, 0x75, 0x6C, 0x6C]))
  {
    match v
    case Number(bits) =>
      EightBytes(bits);
      assert EncodeDouble(bits)[1..] == ToBigEndian(bits, 8);
    case Str(text) => CStringPrefix(STRING_TYPE, text);
    case Object(json) => CStringPrefix(COMPLEX_TYPE, json);
    case TypedArray(bytes) =>
      CStringPrefix(COMPLEX_TYPE, Stringify(bytes));
      MembersNoNul(bytes);
      CStringNoNul(Stringify(bytes));
    case Null =>
      CStringPrefix(COMPLEX_TYPE, JSON_NULL);
      CStringNoNul(JSON_NULL);
    case _ =>
  }

  /** Bytes are stored as they are after their type byte, unless there are none. */
  lemma RawBytes(bytes: Bytes)
    ensures PutBytes(NBytes(bytes)) == if bytes == [] then None else Some([3] + bytes)
  {
  }

  /** What other writers may have stored: complex bytes with their tag, an unknown type, a text without a tag. */
  lemma ForeignForms(data: Bytes, text: Text)
    ensures data != [] && data[0] == 3 ==> GetterResult(GetBytes(Some(data), ANSWERED)) == TypedArray(data)
    ensures data != [] && data[0] > 3 ==> GetterResult(GetBytes(Some(data), ANSWERED)) == Undefined
    ensures |data| <= 1 && (data == [] || data[0] < 3) ==> GetterResult(GetBytes(Some(data), ANSWERED)) == Undefined
    ensures data != [] && data[0] == 2 && |data| < 9 ==> GetterResult(GetBytes(Some(data), ANSWERED)) == Undefined
    ensures |data| >= 2 && data[0] == 1 ==> GetterResult(GetBytes(Some(data), ANSWERED)) == Bool(data[1] != 0)
    ensures GetterResult(NString([0x5B, 0x4E, 0x55, 0x4C, 0x4C, 0x5D] + text)) == Null
    ensures text != [] && text[0] != 0x5B ==> GetterResult(NString(text)) == Str(text)
  {
    assert NULL_TYPE <= NULL_TYPE + text;
    assert (NULL_TYPE + text)[1] != STRING_TYPE[1] && (NULL_TYPE + text)[1] != COMPLEX_TYPE[1];
  }

  /** The values that survive: no embedded NUL, nothing that JSON or the native layer drops. */
  predicate Faithful(v: JsValue) {
    match v
    case Str(text) => 0 !in text
    case Object(json) => 0 !in json && json != JSON_NULL
    case TypedArray(_) => false
    case Other(_) => false
    case _ => true
  }

  lemma {:induction false} CStringNoNul(s: Text)
    ensures CString(s) == s <==> 0 !in s
    ensures 0 !in CString(s) && CString(s) <= s
  {
    if s != [] && s[0] != 0 {
      CStringNoNul(s[1..]);
      assert s == [s[0]] + s[1..];
    }
  }

  lemma {:induction false} CStringPrefix(tag: Text, s: Text)
    requires 0 !in tag
    ensures CString(tag + s) == tag + CString(s)
  {
    if tag == [] {
      assert tag + s == s;
    } else {
      assert (tag + s)[0] == tag[0] && (tag + s)[1..] == tag[1..] + s;
      CStringPrefix(tag[1..], s);
    }
  }

  lemma TagsTellApart(s: Text)
    ensures STRING_TYPE <= STRING_TYPE + s && (STRING_TYPE + s)[|STRING_TYPE|..] == s
    ensures COMPLEX_TYPE <= COMPLEX_TYPE + s && (COMPLEX_TYPE + s)[|COMPLEX_TYPE|..] == s
    ensures !(STRING_TYPE <= COMPLEX_TYPE + s)
  {
    assert (COMPLEX_TYPE + s)[1] != STRING_TYPE[1];
  }

  lemma TaggedString(tag: Text, s: Text)
    requires tag == STRING_TYPE || tag == COMPLEX_TYPE
    ensures GetBytes(Some(EncodeString(CString(tag + s))), ANSWERED) == NString(tag + CString(s))
  {
    CStringPrefix(tag, s);
    StringRoundTrip(tag + CString(s));
  }

  /** The stored form of a storable value reads back as `ReadBack` says. */
  lemma StoredReadsBack(v: JsValue)
    requires !v.Undefined? && !v.Other?
    ensures PutBytes(SetterArgument(v)).Some?
    ensures GetterResult(GetBytes(PutBytes(SetterArgument(v)), ANSWERED)) == ReadBack(v)
  {
    match v
    case Bool(b) => BooleanRoundTrip(b);
    case Number(bits) => DoubleRoundTrip(bits);
    case Str(text) =>
      TaggedString(STRING_TYPE, text);
      TagsTellApart(CString(text));
    case Object(json) =>
      TaggedString(COMPLEX_TYPE, json);
      TagsTellApart(CString(json));
    case TypedArray(bytes) =>
      TaggedString(COMPLEX_TYPE, Stringify(bytes));
      TagsTellApart(CString(Stringify(bytes)));
    case Null =>
      TaggedString(COMPLEX_TYPE, JSON_NULL);
      CStringNoNul(JSON_NULL);
      TagsTellApart(JSON_NULL);
  }

  lemma ReadBackFaithful(v: JsValue)
    requires !v.Other?
    ensures ReadBack(v) == v <==> Faithful(v)
  {
    match v
    case Str(text) => CStringNoNul(text);
    case Object(json) => CStringNoNul(json);
    case _ =>
  }

  /** The bytes stored for a key after a write of `v` to it. */
  function StoredAfter(stored: Option<Bytes>, v: JsValue, dbOk: bool): Option<Bytes> {
    if dbOk && PutBytes(SetterArgument(v)).Some? then PutBytes(SetterArgument(v)) else stored
  }

  /** A write changes what native code keeps for the key, and nothing it keeps for any other. */
  lemma WriteStores(p: Props, key: Text, v: JsValue, dbOk: bool, k: Text)
    requires NoDup(p.undefinedProps)
    ensures NoDup(p.Write(key, v, dbOk).undefinedProps)
    ensures var p' := p.Write(key, v, dbOk);
            if k == NativeKey(key)
            then p'.Stored(k) == StoredAfter(p.Stored(k), v, dbOk) && (k in p'.undefinedProps <==> v.Undefined?)
            else p'.Stored(k) == p.Stored(k) && (k in p'.undefinedProps <==> k in p.undefinedProps)
  {
    FieldKeyInjective(k, NativeKey(key));
    WithoutFirstNoDup(p.undefinedProps, NativeKey(key));
    WithoutNoDup(p.undefinedProps, NativeKey(key));
  }

  /**
   Read after write, for every pair of keys, every value and every answer of the database: keys that
   native code cannot tell apart share one value, every other key is untouched. A value that is refused
   or cannot be stored leaves what was stored before, which shows again even after an undefined.
   */
  lemma ReadAfterWrite(p: Props, key: Text, v: JsValue, dbOk: bool, key': Text, answer: ReadAnswer)
    requires NoDup(p.undefinedProps)
    ensures NoDup(p.Write(key, v, dbOk).undefinedProps)
    ensures p.Write(key, v, dbOk).Read(key', answer) ==
            if NativeKey(key') != NativeKey(key) then p.Read(key', answer)
            else if v.Undefined? then Undefined
            else GetterResult(GetBytes(StoredAfter(p.Stored(NativeKey(key)), v, dbOk), answer))
    ensures v.Undefined? || v.Other? || !dbOk ==>
              StoredAfter(p.Stored(NativeKey(key)), v, dbOk) == p.Stored(NativeKey(key))
    ensures !v.Undefined? && !v.Other? && dbOk ==>
              GetterResult(GetBytes(StoredAfter(p.Stored(NativeKey(key)), v, dbOk), ANSWERED)) == ReadBack(v)
  {
    WriteStores(p, key, v, dbOk, NativeKey(key'));
    if !v.Undefined? && !v.Other? {
      StoredReadsBack(v);
    }
  }

  /**
   A write is read back unchanged exactly when the value is undefined, or it is accepted and faithful,
   or it is refused and what was stored before reads the same.
   */
  lemma WriteIsFaithful(p: Props, key: Text, v: JsValue, dbOk: bool)
    requires NoDup(p.undefinedProps)
    ensures p.Write(key, v, dbOk).Read(key, ANSWERED) == v <==>
            v.Undefined? || (if dbOk then Faithful(v) else GetterResult(p.DoGet(NativeKey(key), ANSWERED)) == v)
  {
    ReadAfterWrite(p, key, v, dbOk, key, ANSWERED);
    if !v.Other? {
      ReadBackFaithful(v);
    }
  }

  /** A refused write over an undefined property brings back the value from before the undefined. */
  lemma RefusedWriteRevives(p: Props, key: Text, a: JsValue, b: JsValue)
    requires NoDup(p.undefinedProps) && Faithful(a) && !a.Undefined? && !b.Undefined?
    ensures var hidden := p.Write(key, a, true).Write(key, Undefined, true);
            && hidden.Read(key, ANSWERED) == Undefined
            && hidden.Write(key, b, false).Read(key, ANSWERED) == a
  {
    var written := p.Write(key, a, true);
    var hidden := written.Write(key, Undefined, true);
    ReadAfterWrite(p, key, a, true, key, ANSWERED);
    ReadAfterWrite(written, key, Undefined, true, key, ANSWERED);
    ReadAfterWrite(hidden, key, b, false, key, ANSWERED);
    WriteStores(written, key, Undefined, true, NativeKey(key));
    WriteStores(p, key, a, true, NativeKey(key));
    ReadBackFaithful(a);
  }

  // ---- Reads that the database refuses ----

  predicate IsString(data: Bytes) {
    data != [] && data[0] == TypeTag(TYPE_STRING)
  }

  /** What assignments store: a string, bool or double, long enough to be read. */
  predicate WellTyped(data: Bytes) {
    |data| >= 2 && data[0] <= TypeTag(TYPE_DOUBLE) && (data[0] == TypeTag(TYPE_DOUBLE) ==> |data| >= 9)
  }

  lemma StoredOk(stored: Option<Bytes>, v: JsValue, dbOk: bool)
    requires stored.Some? ==> WellTyped(stored.value)
    ensures StoredAfter(stored, v, dbOk).Some? ==> WellTyped(StoredAfter(stored, v, dbOk).value)
  {
    match v
    case Str(text) => CStringPrefix(STRING_TYPE, text);
    case Object(json) => CStringPrefix(COMPLEX_TYPE, json);
    case TypedArray(bytes) => CStringPrefix(COMPLEX_TYPE, Stringify(bytes));
    case Null => CStringPrefix(COMPLEX_TYPE, JSON_NULL);
    case Number(bits) => DoubleRoundTrip(bits);
    case _ =>
  }

  /** What a string of raw bytes may come back as. */
  predicate Garbled(v: JsValue) {
    v.Str? || v.Object? || v.Null?
  }

  /** Without the value the property reads undefined. */
  lemma RefusedValue(stored: Option<Bytes>, typeOk: bool)
    ensures GetterResult(GetBytes(stored, ReadAnswer(typeOk, false))) == Undefined
  {
  }

  /** Without the type everything is taken for a string, so a number or a bool reads as its raw bytes. */
  lemma RefusedType(data: Bytes)
    requires WellTyped(data)
    ensures var v, misread := GetterResult(GetBytes(Some(data), ANSWERED)),
                              GetterResult(GetBytes(Some(data), ReadAnswer(false, true)));
            && misread == GetterResult(NString(data[1..])) && Garbled(misread)
            && !v.Undefined? && (v.Bool? || v.Number? <==> !IsString(data))
            && (misread == v <==> IsString(data))
  {
  }

  /** A bool becomes a string of one byte. */
  lemma RefusedTypeOfBool(b: bool)
    ensures GetterResult(GetBytes(Some(EncodeBoolean(b)), ReadAnswer(false, true))) == Str([if b then 1 else 0])
  {
    assert EncodeBoolean(b)[1..] == [if b then 1 else 0];
  }

  /** Short keys without NUL are seen as they are, so native code keeps them apart. */
  lemma ShortKeysAreExact(key: Text)
    ensures NativeKey(key) == key <==> |key| < 64 && 0 !in key
  {
    CStringNoNul(key);
    if |key| >= KEY_SIZE {
      CStringNoNul(key[..KEY_SIZE - 1]);
    }
  }

  /** What native code sees is the longest start of the key with at most 63 bytes and no NUL. */
  lemma NativeKeyIsStart(key: Text)
    ensures var k := NativeKey(key);
            && k <= key && |k| <= 63 && 0 !in k
            && (|k| < |key| && |k| < 63 ==> key[|k|] == 0)
  {
    var cut := if |key| < KEY_SIZE then key else key[..KEY_SIZE - 1];
    CStringNoNul(cut);
    CStringStops(cut);
  }

  lemma {:induction false} CStringStops(s: Text)
    ensures CString(s) <= s && (|CString(s)| < |s| ==> s[|CString(s)|] == 0)
  {
    if s != [] && s[0] != 0 {
      CStringStops(s[1..]);
      assert s == [s[0]] + s[1..];
    }
  }

  /** Long keys without NUL collide exactly when they agree in their first 63 bytes. */
  lemma LongKeysCollideExactly(a: Text, b: Text)
    requires |a| >= KEY_SIZE && |b| >= KEY_SIZE && 0 !in a && 0 !in b
    ensures NativeKey(a) == NativeKey(b) <==> a[..KEY_SIZE - 1] == b[..KEY_SIZE - 1]
  {
    CStringNoNul(a[..KEY_SIZE - 1]);
    CStringNoNul(b[..KEY_SIZE - 1]);
  }

  /** Keys that agree in their first 63 bytes are one key. */
  lemma LongKeysCollide(a: Text, b: Text)
    requires |a| >= KEY_SIZE && |b| >= KEY_SIZE && a[..KEY_SIZE - 1] == b[..KEY_SIZE - 1]
    ensures NativeKey(a) == NativeKey(b)
  {
  }
}
