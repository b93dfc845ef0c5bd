/** The byte layout of the lib0 encoder and decoder the wire protocol is
    built from. An unsigned var-int is unsigned LEB128 (DWARF 5, section
    7.6): seven bits per byte, least significant group first, the high bit
    set on every byte but the last. Strings and byte arrays are a var-uint
    length followed by the bytes (a string by its UTF-8 bytes). A decoder is
    the part of the frame not yet read; running off its end is lib0's
    "unexpected end of array" error. */
module Lib0 {
  import opened Text

  /** The outcome of one read: the value and the bytes after it, or the
      error lib0 throws when the frame ends first. */
  datatype Decoded<T> = Decoded(value: T, rest: seq<byte>) | UnexpectedEnd

  /** `writeVarUint`. */
  function WriteVarUint(n: nat): (bytes: seq<byte>)
    ensures |bytes| >= 1
  {
    if n < 128 then [n] else [128 + n % 128] + WriteVarUint(n / 128)
  }

  /** Every byte but the last has the continuation bit set, the last has
      it clear, and each carries the next seven bits of the number. */
  lemma {:induction false} WriteVarUintShape(n: nat)
    ensures var bytes := WriteVarUint(n);
            (forall i :: 0 <= i < |bytes| - 1 ==> bytes[i] >= 128)
            && bytes[|bytes| - 1] < 128
            && bytes[0] % 128 == n % 128
  {
    if n >= 128 {
      WriteVarUintShape(n / 128);
      var bytes := WriteVarUint(n);
      assert bytes[1..] == WriteVarUint(n / 128);
    }
  }

  /** `readVarUint`: accumulate seven bits per byte until a byte below 128. */
  function ReadVarUint(s: seq<byte>): (d: Decoded<nat>)
    ensures d.Decoded? ==> |d.rest| < |s|
  {
    if s == [] then UnexpectedEnd
    else if s[0] < 128 then Decoded(s[0], s[1..])
    else
      match ReadVarUint(s[1..])
      case UnexpectedEnd => UnexpectedEnd
      case Decoded(high, rest) => Decoded(s[0] - 128 + 128 * high, rest)
  }

  /** `writeUint8`. */
  function WriteUint8(b: byte): seq<byte> { [b] }

  /** `readUint8`. */
  function ReadUint8(s: seq<byte>): (d: Decoded<byte>)
    ensures d.Decoded? ==> |d.rest| < |s|
  {
    if s == [] then UnexpectedEnd else Decoded(s[0], s[1..])
  }

  /** `writeVarUint8Array` and `writeVarString`: the length, then the bytes. */
  function WriteVarBytes(data: seq<byte>): seq<byte>
  {
    WriteVarUint(|data|) + data
  }

  /** `readVarUint8Array` and `readVarString`: a length, then that many
      bytes; a length past the end of the frame is an error. */
  function ReadVarBytes(s: seq<byte>): (d: Decoded<seq<byte>>)
    ensures d.Decoded? ==> |d.rest| < |s|
  {
    match ReadVarUint(s)
    case UnexpectedEnd => UnexpectedEnd
    case Decoded(len, rest) =>
      if len <= |rest| then Decoded(rest[..len], rest[len..]) else UnexpectedEnd
  }

  /** Reading a var-uint back from its encoding, whatever follows it. */
  lemma {:induction false} VarUintRoundTrip(n: nat, rest: seq<byte>)
    ensures ReadVarUint(WriteVarUint(n) + rest) == Decoded(n, rest)
  {
    if n >= 128 {
      var s := WriteVarUint(n) + rest;
      assert s[1..] == WriteVarUint(n / 128) + rest;
      VarUintRoundTrip(n / 128, rest);
    }
  }

  lemma VarBytesRoundTrip(data: seq<byte>, rest: seq<byte>)
    ensures ReadVarBytes(WriteVarBytes(data) + rest) == Decoded(data, rest)
  {
    assert WriteVarBytes(data) + rest == WriteVarUint(|data|) + (data + rest);
    VarUintRoundTrip(|data|, data + rest);
    assert (data + rest)[..|data|] == data;
    assert (data + rest)[|data|..] == rest;
  }

  /** A number below 128 is one byte either way, so a tag written with
      `writeUint8` reads back the same under `readVarUint` and under
      `readUint8`, and one written with `writeVarUint` is that same byte. */
  lemma SmallVarUint(n: nat, rest: seq<byte>)
    requires n < 128
    ensures WriteVarUint(n) == WriteUint8(n)
    ensures ReadVarUint(WriteUint8(n) + rest) == Decoded(n, rest)
    ensures ReadUint8(WriteUint8(n) + rest) == Decoded(n, rest)
  {
  }

  /** An encoder's output followed by more bytes, regrouped field by
      field so each reader sees its own field first. */
  lemma Regroup3(a: seq<byte>, b: seq<byte>, c: seq<byte>, rest: seq<byte>)
    ensures a + b + c + rest == a + (b + (c + rest))
  {
  }

  lemma Regroup4(a: seq<byte>, b: seq<byte>, c: seq<byte>, d: seq<byte>, rest: seq<byte>)
    ensures a + b + c + d + rest == a + (b + (c + (d + rest)))
  {
  }

  lemma Regroup5(a: seq<byte>, b: seq<byte>, c: seq<byte>, d: seq<byte>, e: seq<byte>, rest: seq<byte>)
    ensures a + b + c + d + e + rest == a + (b + (c + (d + (e + rest))))
  {
  }
}
