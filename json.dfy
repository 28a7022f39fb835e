/** A value that may be absent. */
module Wrappers {
  datatype Option<+T> = None | Some(value: T)
}

/**
 * Decoded JSON as the client reads it (Qt's QJsonValue and QJsonObject), with
 * Qt's lenient accessors and the C++ integer conversions the client applies to
 * what it reads. An accessor never fails: a missing key or a value of the
 * wrong kind reads as that accessor's default.
 */
module Json {

  datatype JVal =
    | JUndefined                      // what a missing key or index reads as
    | JNull
    | JBool(b: bool)
    | JNum(n: int)                    // JSON numbers; only whole numbers are modelled
    | JStr(s: string)
    | JArr(items: seq<JVal>)
    | JObj(fields: map<string, JVal>)

  /** A JSON object: the shape of every message, in both directions. */
  type Json = map<string, JVal>

  /** uint8_t and uint16_t. */
  type u8 = x: int | 0 <= x < 0x100
  type u16 = x: int | 0 <= x < 0x1_0000

  predicate IsInt32(n: int) {
    -0x8000_0000 <= n < 0x8000_0000
  }

  /** obj[key]: a missing key reads as undefined. */
  function Field(obj: Json, key: string): (v: JVal)
    ensures key !in obj ==> v == JUndefined
    ensures v != JUndefined ==> key in obj && obj[key] == v
  {
    if key in obj then obj[key] else JUndefined
  }

  /** value[i]: a non-array, or an index past the end, reads as undefined. */
  function At(v: JVal, i: nat): (r: JVal)
    ensures r != JUndefined ==> v.JArr? && i < |v.items| && v.items[i] == r
    ensures !v.JArr? ==> r == JUndefined
  {
    if v.JArr? && i < |v.items| then v.items[i] else JUndefined
  }

  /** toBool(): only a boolean true reads as true. */
  function ToBool(v: JVal): (b: bool)
    ensures b <==> v == JBool(true)
  {
    v.JBool? && v.b
  }

  /** toInt(): a whole number in the range of int reads as itself; anything else as 0. */
  function ToInt(v: JVal): (n: int)
    ensures IsInt32(n)
    ensures n != 0 ==> v == JNum(n)
    ensures v.JNum? && IsInt32(v.n) ==> n == v.n
  {
    if v.JNum? && IsInt32(v.n) then v.n else 0
  }

  /** toString(): a string reads as itself; anything else as the empty string. */
  function ToStr(v: JVal): (s: string)
    ensures s != "" ==> v == JStr(s)
    ensures v.JStr? ==> s == v.s
  {
    if v.JStr? then v.s else ""
  }

  /** toArray(): an array reads as its items; anything else as no items. */
  function ToArray(v: JVal): (items: seq<JVal>)
    ensures items != [] ==> v == JArr(items)
    ensures v.JArr? ==> items == v.items
  {
    if v.JArr? then v.items else []
  }

  /** toObject(): an object reads as its fields; anything else as the empty object. */
  function ToObject(v: JVal): (obj: Json)
    ensures obj != map[] ==> v == JObj(obj)
    ensures v.JObj? ==> obj == v.fields
  {
    if v.JObj? then v.fields else map[]
  }

  /** Conversion of an int to uint8_t: the one byte congruent to n modulo 2^8. */
  function ToU8(n: int): (r: u8)
    ensures (n - r) % 0x100 == 0
    ensures 0 <= n < 0x100 ==> r == n
  {
    n % 0x100
  }

  /** Conversion of an int to uint16_t: the one value congruent to n modulo 2^16. */
  function ToU16(n: int): (r: u16)
    ensures (n - r) % 0x1_0000 == 0
    ensures 0 <= n < 0x1_0000 ==> r == n
  {
    n % 0x1_0000
  }
}
