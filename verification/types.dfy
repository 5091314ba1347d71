/**
 Types, constants and status codes shared by every layer.

 A JavaScript or C++ string is represented by its UTF-8 bytes, so that the byte limits of the
 native layer (63-byte keys, strings cut at a NUL) can be stated exactly.
 */
module Types {

  type Byte = x: int | 0 <= x < 256
  type Bytes = seq<Byte>
  type Text = seq<Byte>

  datatype Option<+T> = None | Some(value: T)

  /** A JavaScript function passed to `on`/`off`; all that the code does with it is compare it. */
  datatype Callback = Callback(id: nat)

  datatype EventType = Change | Status | OtherEvent

  type SessionId = Text

  /** The address of a native `DistributedObject`. */
  type ObjectId = nat

  // Status codes (interfaces/innerkits/objectstore_errors.h)
  type StatusCode = nat

  const BASE_ERR_OFFSET: nat := 1650
  const SUCCESS: StatusCode := 0
  const ERR_EXIST: StatusCode := BASE_ERR_OFFSET + 2
  const ERR_DATA_LEN: StatusCode := BASE_ERR_OFFSET + 3
  const ERR_DB_NOT_INIT: StatusCode := BASE_ERR_OFFSET + 5
  const ERR_DB_GETKV_FAIL: StatusCode := BASE_ERR_OFFSET + 6
  const ERR_DB_NOT_EXIST: StatusCode := BASE_ERR_OFFSET + 7
  const ERR_DB_GET_FAIL: StatusCode := BASE_ERR_OFFSET + 8
  const ERR_CLOSE_STORAGE: StatusCode := BASE_ERR_OFFSET + 10
  const ERR_REGISTER: StatusCode := BASE_ERR_OFFSET + 12
  const ERR_GET_OBJECT: StatusCode := BASE_ERR_OFFSET + 14
  const ERR_NO_OBSERVER: StatusCode := BASE_ERR_OFFSET + 15
  const ERR_UNRIGSTER: StatusCode := BASE_ERR_OFFSET + 16
  const ERR_SINGLE_DEVICE: StatusCode := BASE_ERR_OFFSET + 17
}
