/** The content store of src/lib/sourceStore.ts: full document texts kept in
    a key/value database under `'fishdoc-source-' + docId`, and the document
    id `hashText` derives from a text (its SHA-1 digest in lower-case hex). */
module Sources {
  import opened Base

  const KEY_PREFIX: string := "fishdoc-source-"

  /** Length of a SHA-1 digest in bytes (section 6.1 of FIPS 180-4). */
  const SHA1_DIGEST_LENGTH: nat := 20

  newtype Byte = x: int | 0 <= x < 256

  /** The database key a document's text is stored under. */
  function Key(docId: string): (k: string)
    ensures StartsWith(k, KEY_PREFIX) && k[|KEY_PREFIX|..] == docId
  {
    KEY_PREFIX + docId
  }

  /** Distinct document ids never share a storage key. */
  lemma KeyInjective(a: string, b: string)
    ensures Key(a) == Key(b) <==> a == b
  {
    if Key(a) == Key(b) {
      assert a == Key(a)[|KEY_PREFIX|..];
    }
  }

  /** What `readSource(docId)` resolves to against the database `entries`. */
  function Lookup(entries: map<string, string>, docId: string): (r: Option<string>)
    ensures r.Some? <==> Key(docId) in entries
    ensures r.Some? ==> r.value == entries[Key(docId)]
  {
    if Key(docId) in entries then Some(entries[Key(docId)]) else None
  }

  /** The key/value database (`idb-keyval`) as far as the sources use it. */
  class SourceDb {
    var entries: map<string, string>

    constructor ()
      ensures entries == map[]
      ensures forall id :: Lookup(entries, id) == None
    {
      entries := map[];
    }

    /** `readSource(docId)`: the stored text, or undefined when the id was
        never written or has been deleted (never an empty string in its place). */
    method ReadSource(docId: string) returns (r: Option<string>)
      ensures r.Some? <==> Key(docId) in entries
      ensures r.Some? ==> r.value == entries[Key(docId)]
    {
      if Key(docId) in entries {
        r := Some(entries[Key(docId)]);
      } else {
        r := None;
      }
    }

    /** `writeSource(docId, text)`: stores `text`, replacing any earlier text
        for the same id; other ids read as before. */
    method WriteSource(docId: string, text: string)
      modifies this
      ensures entries == old(entries)[Key(docId) := text]
      ensures Lookup(entries, docId) == Some(text)
      ensures forall other :: other != docId ==> Lookup(entries, other) == Lookup(old(entries), other)
    {
      entries := entries[Key(docId) := text];
      forall other | other != docId
        ensures Lookup(entries, other) == Lookup(old(entries), other)
      {
        KeyInjective(other, docId);
      }
    }

    /** `deleteSource(docId)`: removes the text, if any; other ids read as before. */
    method DeleteSource(docId: string)
      modifies this
      ensures entries == old(entries) - {Key(docId)}
      ensures Lookup(entries, docId) == None
      ensures forall other :: other != docId ==> Lookup(entries, other) == Lookup(old(entries), other)
    {
      entries := entries - {Key(docId)};
      forall other | other != docId
        ensures Lookup(entries, other) == Lookup(old(entries), other)
      {
        KeyInjective(other, docId);
      }
    }
  }

  // ---------------------------------------------------------------------
  // Hex encoding of the digest: bytes.map(b => b.toString(16).padStart(2, '0')).join('')

  /** A lower-case hexadecimal digit, as `Number.prototype.toString(16)` writes it. */
  predicate IsHexDigit(c: char) {
    ('0' <= c <= '9') || ('a' <= c <= 'f')
  }

  function HexDigit(d: nat): (c: char)
    requires d < 16
    ensures IsHexDigit(c)
  {
    if d < 10 then (('0' as int) + d) as char else (('a' as int) + d - 10) as char
  }

  /** The value of a lower-case hex digit; `None` for any other character. */
  function DigitValue(c: char): (v: Option<nat>)
    ensures v.Some? <==> IsHexDigit(c)
    ensures v.Some? ==> v.value < 16 && HexDigit(v.value) == c
  {
    if '0' <= c <= '9' then Some((c as int) - ('0' as int))
    else if 'a' <= c <= 'f' then Some((c as int) - ('a' as int) + 10)
    else None
  }

  /** `b.toString(16)` for a byte: no leading zero, so one digit below 16. */
  function ToBase16(b: Byte): (s: string)
    ensures |s| == if b < 16 then 1 else 2
  {
    if b < 16 then [HexDigit(b as nat)]
    else [HexDigit((b / 16) as nat), HexDigit((b % 16) as nat)]
  }

  /** `s.padStart(width, fill)`. */
  function PadStart(s: string, width: nat, fill: char): (r: string)
    ensures |r| == Max(width, |s|)
    ensures exists pad :: r == pad + s && forall i :: 0 <= i < |pad| ==> pad[i] == fill
  {
    if |s| >= width then
      assert s == [] + s;
      s
    else
      var r := [fill] + PadStart(s, width - 1, fill);
      var pad' :| PadStart(s, width - 1, fill) == pad' + s && forall i :: 0 <= i < |pad'| ==> pad'[i] == fill;
      assert r == ([fill] + pad') + s;
      r
  }

  /** One byte of the digest as `hashText` writes it. */
  function ByteHex(b: Byte): (s: string)
    ensures |s| == 2 && IsHexDigit(s[0]) && IsHexDigit(s[1])
    ensures DigitValue(s[0]).value * 16 + DigitValue(s[1]).value == b as int
  {
    if b < 16 then
      assert PadStart(ToBase16(b), 2, '0') == ['0', HexDigit(b as nat)];
      PadStart(ToBase16(b), 2, '0')
    else
      PadStart(ToBase16(b), 2, '0')
  }

  /** Every byte becomes exactly two digits, high nibble first, zero-padded. */
  lemma ByteHexDigits(b: Byte)
    ensures ByteHex(b) == [HexDigit((b / 16) as nat), HexDigit((b % 16) as nat)]
  {
    if b < 16 {
      assert ByteHex(b) == [HexDigit(0), HexDigit(b as nat)];
    }
  }

  /** The id `hashText` returns for a digest: its bytes in hex, joined. */
  function HexEncode(bytes: seq<Byte>): (s: string)
    ensures |s| == 2 * |bytes|
    ensures forall i :: 0 <= i < |s| ==> IsHexDigit(s[i])
  {
    if bytes == [] then ""
    else
      ByteHexDigits(bytes[0]);
      ByteHex(bytes[0]) + HexEncode(bytes[1..])
  }

  /** Reads a string of lower-case hex digit pairs back into bytes. */
  function HexDecode(s: string): (r: Option<seq<Byte>>)
    ensures r.Some? ==> 2 * |r.value| == |s|
  {
    if s == [] then Some([])
    else if |s| == 1 then None
    else
      match (DigitValue(s[0]), DigitValue(s[1]), HexDecode(s[2..]))
      case (Some(hi), Some(lo), Some(rest)) => Some([(hi * 16 + lo) as Byte] + rest)
      case _ => None
  }

  /** Decoding reads one encoded byte off the front and goes on with the rest. */
  lemma DecodeByteHex(b: Byte, tail: string)
    ensures HexDecode(ByteHex(b) + tail) ==
      if HexDecode(tail).Some? then Some([b] + HexDecode(tail).value) else None
  {
    var hi, lo := (b / 16) as nat, (b % 16) as nat;
    ByteHexDigits(b);
    var s := ByteHex(b) + tail;
    assert s[0] == HexDigit(hi) && s[1] == HexDigit(lo) && s[2..] == tail;
    assert DigitValue(s[0]) == Some(hi);
    assert DigitValue(s[1]) == Some(lo);
    assert (hi * 16 + lo) as Byte == b;
  }

  /** Decoding undoes the encoding. */
  lemma {:induction false} HexRoundTrip(bytes: seq<Byte>)
    ensures HexDecode(HexEncode(bytes)) == Some(bytes)
  {
    if bytes != [] {
      HexRoundTrip(bytes[1..]);
      DecodeByteHex(bytes[0], HexEncode(bytes[1..]));
      assert [bytes[0]] + bytes[1..] == bytes;
    }
  }

  /** Distinct digests give distinct ids: the id determines the digest. */
  lemma HexEncodeInjective(a: seq<Byte>, b: seq<Byte>)
    ensures HexEncode(a) == HexEncode(b) <==> a == b
  {
    if HexEncode(a) == HexEncode(b) {
      HexRoundTrip(a);
      HexRoundTrip(b);
    }
  }

  /** `hashText(text)`: the hex form of the SHA-1 digest of the text's UTF-8
      bytes. The digest itself is a platform call; `sha1` stands for it. */
  function HashText(text: string, sha1: string -> seq<Byte>): (id: string)
    requires |sha1(text)| == SHA1_DIGEST_LENGTH
    ensures |id| == 2 * SHA1_DIGEST_LENGTH
    ensures forall i :: 0 <= i < |id| ==> IsHexDigit(id[i])
    ensures HexDecode(id) == Some(sha1(text))
  {
    HexRoundTrip(sha1(text));
    HexEncode(sha1(text))
  }
}
