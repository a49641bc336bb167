/** The byte sequence that a request fingerprint is computed from: each field preceded by its length. */
module Fingerprint {

  type Byte = b: int | 0 <= b < 256

  /** A Go string: its length fits a signed 64-bit word. */
  type Field = s: seq<Byte> | |s| < 0x8000_0000_0000_0000

  // ----- big-endian words -----

  function Power256(k: nat): nat {
    if k == 0 then 1 else 256 * Power256(k - 1)
  }

  function BigEndian(n: nat, k: nat): (bytes: seq<Byte>)
    ensures |bytes| == k
  {
    if k == 0 then [] else BigEndian(n / 256, k - 1) + [n % 256]
  }

  function FromBigEndian(bytes: seq<Byte>): nat {
    if bytes == [] then 0 else 256 * FromBigEndian(bytes[..|bytes| - 1]) + bytes[|bytes| - 1]
  }

  /** A number that fits k bytes is read back from them. */
  lemma {:induction false} BigEndianReadsBack(n: nat, k: nat)
    requires n < Power256(k)
    ensures FromBigEndian(BigEndian(n, k)) == n
  {
    if k > 0 {
      BigEndianReadsBack(n / 256, k - 1);
      var bytes := BigEndian(n, k);
      assert bytes[..k - 1] == BigEndian(n / 256, k - 1);
    }
  }

  lemma EightBytes()
    ensures Power256(8) == 0x1_0000_0000_0000_0000
  {
    assert Power256(2) == 0x1_0000;
    assert Power256(4) == 0x1_0000_0000;
    assert Power256(6) == 0x1_0000_0000_0000;
  }

  // ----- framing -----

  function Frame(value: Field): seq<Byte> {
    BigEndian(|value|, 8) + value
  }

  function Framed(values: seq<Field>): seq<Byte> {
    if values == [] then [] else Frame(values[0]) + Framed(values[1..])
  }

  /** What the loop of Vault.Fingerprint writes to the MAC. */
  method MacInput(values: seq<Field>) returns (written: seq<Byte>)
    ensures written == Framed(values)
  {
    written := [];
    for i := 0 to |values|
      invariant written == Framed(values[..i])
    {
      FramedAppend(values[..i], values[i]);
      assert values[..i + 1] == values[..i] + [values[i]];
      written := written + BigEndian(|values[i]|, 8);
      written := written + values[i];
    }
    assert values[..|values|] == values;
  }

  lemma {:induction false} FramedAppend(values: seq<Field>, value: Field)
    ensures Framed(values + [value]) == Framed(values) + BigEndian(|value|, 8) + value
  {
    if values == [] {
      assert [value][1..] == [] && [] + [value] == [value];
      assert Framed([value]) == Frame(value) + Framed([]);
    } else {
      assert (values + [value])[1..] == values[1..] + [value];
      FramedAppend(values[1..], value);
      assert Frame(values[0]) + (Framed(values[1..]) + BigEndian(|value|, 8) + value) ==
        Frame(values[0]) + Framed(values[1..]) + BigEndian(|value|, 8) + value;
    }
  }

  /** Reads one frame after another; nothing for bytes that are no sequence of frames. */
  function Unframed(bytes: seq<Byte>): (values: seq<seq<Byte>>) {
    if |bytes| < 8 || |bytes| < 8 + FromBigEndian(bytes[..8]) then []
    else
      var end := 8 + FromBigEndian(bytes[..8]);
      [bytes[8..end]] + Unframed(bytes[end..])
  }

  /** The fields, all of them and their boundaries, are read back from the framed bytes. */
  lemma {:induction false} FramesReadBack(values: seq<Field>)
    ensures Unframed(Framed(values)) == values
  {
    if values != [] {
      var value, rest := values[0], Framed(values[1..]);
      var bytes := Framed(values);
      EightBytes();
      BigEndianReadsBack(|value|, 8);
      assert bytes[..8] == BigEndian(|value|, 8);
      var end := 8 + |value|;
      assert bytes[8..end] == value && bytes[end..] == rest;
      FramesReadBack(values[1..]);
      assert values == [value] + values[1..];
    }
  }

  /** Two lists of fields are framed alike only if they are the same list. */
  lemma FramingIsInjective(a: seq<Field>, b: seq<Field>)
    requires Framed(a) == Framed(b)
    ensures a == b
  {
    FramesReadBack(a);
    FramesReadBack(b);
  }

  function Concatenated(values: seq<Field>): seq<Byte> {
    if values == [] then [] else values[0] + Concatenated(values[1..])
  }

  /** Without the lengths, a user name could not be told from the start of a password. */
  lemma ConcatenationIsNotInjective()
    ensures exists a, b :: |a| == |b| == 2 && a != b && Concatenated(a) == Concatenated(b)
  {
    var a: seq<Field>, b: seq<Field> := [[97], [98, 99]], [[97, 98], [99]];
    assert a[1..] == [[98, 99]] && b[1..] == [[99]] && a[1..][1..] == [] && b[1..][1..] == [];
    assert Concatenated(a) == [97, 98, 99] && Concatenated(b) == [97, 98, 99];
    assert |a[0]| != |b[0]|;
  }

  // ----- requests -----

  datatype Request =
    | CreateRequest(username: Field, password: Field, expiresAt: Field, note: Field)
    | RegisterRequest(codeHash: Field, username: Field, password: Field)

  const ACCOUNT_CREATE: Field := [97, 99, 99, 111, 117, 110, 116, 95, 99, 114, 101, 97, 116, 101]  // "account_create"
  const REGISTER: Field := [114, 101, 103, 105, 115, 116, 101, 114]                                  // "register"

  function FieldsOf(request: Request): seq<Field> {
    match request
    case CreateRequest(username, password, expiresAt, note) => [ACCOUNT_CREATE, username, password, expiresAt, note]
    case RegisterRequest(codeHash, username, password) => [REGISTER, codeHash, username, password]
  }

  /** Two requests share a MAC input only if kind and every field are equal; so under an injective MAC a
      reused idempotency key is accepted for the very same request alone. */
  lemma RequestsShareInputOnlyWhenEqual(a: Request, b: Request)
    requires Framed(FieldsOf(a)) == Framed(FieldsOf(b))
    ensures a == b
  {
    FramingIsInjective(FieldsOf(a), FieldsOf(b));
    assert |FieldsOf(a)| == |FieldsOf(b)|;
    assert forall i :: 0 <= i < |FieldsOf(a)| ==> FieldsOf(a)[i] == FieldsOf(b)[i];
  }
}
