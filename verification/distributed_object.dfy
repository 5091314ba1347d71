/**
 Typed properties of one session, stored through the engine
 (frameworks/innerkitsimpl/src/adaptor/distributed_object_impl.cpp).
 */
module DistributedObjects {
  import opened Types
  import opened ByteCodec
  import opened StorageEngine

  const FIELDS_PREFIX: Text := [0x70, 0x5F]  // p_

  function FieldKey(key: Text): Bytes {
    FIELDS_PREFIX + key
  }

  /** Property keys start with p_ and go on with the whole key. */
  lemma FieldKeyForm(key: Text)
    ensures FieldKey(key) == [0x70, 0x5F] + key
  {
  }

  lemma FieldKeyInjective(a: Text, b: Text)
    ensures FieldKey(a) == FieldKey(b) <==> a == b
  {
    assert FieldKey(a)[2..] == a && FieldKey(b)[2..] == b;
  }

  class DistributedObjectImpl {
    const session: SessionId
    const engine: FlatObjectStorageEngine

    constructor (session: SessionId, engine: FlatObjectStorageEngine)
      ensures this.session == session && this.engine == engine
    {
      this.session, this.engine := session, engine;
    }

    /** The bytes that a read of the property gives; `dbOk` tells whether the database gives them. */
    ghost function Stored(key: Text, dbOk: bool): Option<Bytes>
      reads engine
    {
      if engine.isOpened && session in engine.delegates && FieldKey(key) in engine.delegates[session].entries && dbOk
      then Some(engine.delegates[session].entries[FieldKey(key)])
      else None
    }

    /** The status of a read that gives nothing; `failure` is the status the database answers. */
    ghost function ReadFailure(failure: StatusCode): StatusCode
      reads engine
    {
      if !engine.isOpened then ERR_DB_NOT_INIT
      else if session !in engine.delegates then ERR_DB_NOT_EXIST
      else failure
    }

    method PutDouble(key: Text, value: Bits64, dbOk: bool) returns (status: StatusCode)
      modifies engine
      ensures (engine.State(), status) ==
              old(engine.State()).UpdateItem(session, FieldKey(key), EncodeDouble(value), dbOk)
    {
      var data := PutNum(TypeTag(TYPE_DOUBLE), 0, 1, []);
      OneByte(data, TypeTag(TYPE_DOUBLE));
      data := PutNum(value, 1, 8, data);
      assert data == EncodeDouble(value) by {
        assert data == data[0..1] + data[1..9];
      }
      status := engine.UpdateItem(session, FIELDS_PREFIX + key, data, dbOk);
    }

    /** The eight bytes loaded from the address of a one-byte bool include seven neighbours. */
    method PutBoolean(key: Text, value: bool, neighbours: nat, dbOk: bool) returns (status: StatusCode)
      modifies engine
      ensures (engine.State(), status) ==
              old(engine.State()).UpdateItem(session, FieldKey(key), EncodeBoolean(value), dbOk)
    {
      var data := PutNum(TypeTag(TYPE_BOOLEAN), 0, 1, []);
      OneByte(data, TypeTag(TYPE_BOOLEAN));
      var load := (if value then 1 else 0) + 256 * neighbours;
      data := PutNum(load, 1, 1, data);
      assert data == EncodeBoolean(value) by {
        OneByte(data[1..2], load);
        assert data == data[0..1] + data[1..2];
      }
      status := engine.UpdateItem(session, FIELDS_PREFIX + key, data, dbOk);
    }

    method PutString(key: Text, value: Text, dbOk: bool) returns (status: StatusCode)
      modifies engine
      ensures (engine.State(), status) ==
              old(engine.State()).UpdateItem(session, FieldKey(key), EncodeString(value), dbOk)
    {
      var data := PutNum(TypeTag(TYPE_STRING), 0, 1, []);
      OneByte(data, TypeTag(TYPE_STRING));
      status := engine.UpdateItem(session, FIELDS_PREFIX + key, data + value, dbOk);
    }

    method PutComplex(key: Text, value: Bytes, dbOk: bool) returns (status: StatusCode)
      modifies engine
      ensures (engine.State(), status) ==
              old(engine.State()).UpdateItem(session, FieldKey(key), EncodeComplex(value), dbOk)
    {
      var data := PutNum(TypeTag(TYPE_COMPLEX), 0, 1, []);
      OneByte(data, TypeTag(TYPE_COMPLEX));
      status := engine.UpdateItem(session, FIELDS_PREFIX + key, data + value, dbOk);
    }

    method GetType(key: Text, dbOk: bool, failure: StatusCode) returns (status: StatusCode, t: Byte)
      requires failure != SUCCESS
      ensures status == SUCCESS <==> Stored(key, dbOk).Some? && DecodeType(Stored(key, dbOk).value).Some?
      ensures status == SUCCESS ==> Some(t) == DecodeType(Stored(key, dbOk).value)
      ensures status != SUCCESS ==> status == if Stored(key, dbOk).Some? then ERR_DATA_LEN else ReadFailure(failure)
    {
      t := 0;
      var data;
      status, data := engine.GetItem(session, FIELDS_PREFIX + key, dbOk, failure);
      if status != SUCCESS {
        return;
      }
      var bytes;
      status, bytes := GetNum(data, 0, 1);
      if status == SUCCESS {
        assert data[0..1] == [data[0]];
        SingleByte(bytes, data[0]);
        t := bytes[0];
      }
    }

    method GetDouble(key: Text, dbOk: bool, failure: StatusCode) returns (status: StatusCode, value: Bits64)
      requires failure != SUCCESS
      ensures status == SUCCESS <==> Stored(key, dbOk).Some? && DecodeDouble(Stored(key, dbOk).value).Some?
      ensures status == SUCCESS ==> Some(value) == DecodeDouble(Stored(key, dbOk).value)
      ensures status != SUCCESS ==> status == if Stored(key, dbOk).Some? then ERR_DATA_LEN else ReadFailure(failure)
    {
      value := 0;
      var data;
      status, data := engine.GetItem(session, FIELDS_PREFIX + key, dbOk, failure);
      if status != SUCCESS {
        return;
      }
      var bytes;
      status, bytes := GetNum(data, 1, 8);
      if status == SUCCESS {
        assert DecodeDouble(data) == Some(LittleEndian(bytes));
        value := LittleEndian(bytes);
      }
    }

    method GetBoolean(key: Text, dbOk: bool, failure: StatusCode) returns (status: StatusCode, value: bool)
      requires failure != SUCCESS
      ensures status == SUCCESS <==> Stored(key, dbOk).Some? && DecodeBoolean(Stored(key, dbOk).value).Some?
      ensures status == SUCCESS ==> Some(value) == DecodeBoolean(Stored(key, dbOk).value)
      ensures status != SUCCESS ==> status == if Stored(key, dbOk).Some? then ERR_DATA_LEN else ReadFailure(failure)
    {
      value := false;
      var data;
      status, data := engine.GetItem(session, FIELDS_PREFIX + key, dbOk, failure);
      if status != SUCCESS {
        return;
      }
      var bytes;
      status, bytes := GetNum(data, 1, 1);
      if status == SUCCESS {
        assert data[1..2] == [data[1]];
        SingleByte(bytes, data[1]);
        value := bytes[0] != 0;
      }
    }

    /** `BytesToStrWithType`: everything after the type byte, if there is anything. */
    method GetString(key: Text, dbOk: bool, failure: StatusCode) returns (status: StatusCode, value: Text)
      requires failure != SUCCESS
      ensures status == SUCCESS <==> Stored(key, dbOk).Some? && DecodeString(Stored(key, dbOk).value).Some?
      ensures status == SUCCESS ==> Some(value) == DecodeString(Stored(key, dbOk).value)
      ensures status != SUCCESS ==> status == if Stored(key, dbOk).Some? then ERR_DATA_LEN else ReadFailure(failure)
    {
      value := [];
      var data;
      status, data := engine.GetItem(session, FIELDS_PREFIX + key, dbOk, failure);
      if status != SUCCESS {
        return;
      }
      if |data| <= 1 {
        return ERR_DATA_LEN, value;
      }
      value := data[1..];
    }

    /** The stored bytes as they are, type byte included. */
    method GetComplex(key: Text, dbOk: bool, failure: StatusCode) returns (status: StatusCode, value: Bytes)
      requires failure != SUCCESS
      ensures status == SUCCESS <==> Stored(key, dbOk).Some?
      ensures status == SUCCESS ==> value == Stored(key, dbOk).value
      ensures status != SUCCESS ==> status == ReadFailure(failure)
    {
      status, value := engine.GetItem(session, FIELDS_PREFIX + key, dbOk, failure);
    }
  }

  lemma OneByte(data: Bytes, load: nat)
    requires |data| == 1 && data[0..1] == ToBigEndian(load, 1)
    ensures data == [load % 256]
  {
  }

  lemma SingleByte(little: Bytes, b: Byte)
    requires |little| == 1 && LittleEndian(little) == BigEndian([b])
    ensures little[0] == b
  {
  }

  /** `GetComplex` after an accepted `PutComplex`: the type byte comes along, so it is never the value that was put. */
  lemma ComplexComesBackTagged(e: Engine, session: SessionId, key: Text, value: Bytes)
    requires e.isOpened && session in e.delegates
    ensures var put := e.UpdateItem(session, FieldKey(key), EncodeComplex(value), true).0;
            && session in put.delegates && FieldKey(key) in put.delegates[session].entries
            && put.delegates[session].entries[FieldKey(key)] == [3] + value != value
  {
  }
}
