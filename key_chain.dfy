/**
  `KeyChain`: the key store behind the key-management repository. It keeps
  ONE string per tag in a key-value store: either a symmetric key, or a key
  pair concatenated into a single hex string. Symmetric keys and key pairs
  therefore share one tag space. Keys are assumed to travel as well-formed
  hex strings (written in lowercase) and are converted to bytes to be joined
  and split; the hex utilities themselves are not part of this model.
 */
module KeyChain {
  import opened Wrappers

  type Byte = x: int | 0 <= x < 256

  const HEX_DIGITS: string := "0123456789abcdef"

  predicate IsHexChar(c: char) {
    ('0' <= c <= '9') || ('a' <= c <= 'f') || ('A' <= c <= 'F')
  }

  /** A well-formed hex string: an even number of hex digits, two per byte. */
  predicate IsHex(s: string) {
    |s| % 2 == 0 && forall i :: 0 <= i < |s| ==> IsHexChar(s[i])
  }

  type Hex = s: string | IsHex(s) witness ""

  /** The value of one hex digit, either case. */
  function DigitValue(c: char): (v: int)
    requires IsHexChar(c)
    ensures 0 <= v < 16
  {
    if '0' <= c <= '9' then c as int - '0' as int
    else if 'a' <= c <= 'f' then c as int - 'a' as int + 10
    else c as int - 'A' as int + 10
  }

  lemma DigitRoundTrip(v: int)
    requires 0 <= v < 16
    ensures IsHexChar(HEX_DIGITS[v]) && DigitValue(HEX_DIGITS[v]) == v
  {
  }

  /** `bytesToHex`: two lowercase digits per byte, high nibble first. */
  function BytesToHex(b: seq<Byte>): (s: Hex)
    ensures |s| == 2 * |b|
  {
    if b == [] then ""
    else
      var rest := BytesToHex(b[1..]);
      var s := [HEX_DIGITS[b[0] / 16], HEX_DIGITS[b[0] % 16]] + rest;
      assert forall i :: 2 <= i < |s| ==> s[i] == rest[i - 2];
      s
  }

  /** `hexToBytes`: one byte per pair of digits. */
  function HexToBytes(s: Hex): (b: seq<Byte>)
    ensures |b| == |s| / 2
  {
    if s == [] then []
    else
      assert IsHexChar(s[0]) && IsHexChar(s[1]);
      [DigitValue(s[0]) * 16 + DigitValue(s[1])] + HexToBytes(s[2..])
  }

  /** Decoding undoes encoding. */
  lemma {:induction false} HexRoundTrip(b: seq<Byte>)
    ensures HexToBytes(BytesToHex(b)) == b
  {
    if b != [] {
      var hi, lo := b[0] / 16, b[0] % 16;
      assert hi * 16 + lo == b[0];
      DigitRoundTrip(hi);
      DigitRoundTrip(lo);
      var s := BytesToHex(b);
      assert s[0] == HEX_DIGITS[hi] && s[1] == HEX_DIGITS[lo];
      assert s[2..] == BytesToHex(b[1..]);
      HexRoundTrip(b[1..]);
      assert HexToBytes(s) == [DigitValue(s[0]) * 16 + DigitValue(s[1])] + HexToBytes(s[2..]);
    }
  }

  /** `concatKeys`: the bytes of `a` followed by the bytes of `b`, as hex. */
  function ConcatKeys(a: Hex, b: Hex): (r: Hex)
    ensures HexToBytes(r) == HexToBytes(a) + HexToBytes(b)
    ensures |r| == |a| + |b|
  {
    HexRoundTrip(HexToBytes(a) + HexToBytes(b));
    BytesToHex(HexToBytes(a) + HexToBytes(b))
  }

  /**
    `splitKeys`: the first half of the bytes (rounded down) and the rest, as
    hex; the two halves put back together give the bytes of the input.
   */
  function SplitKeys(s: Hex): (r: (Hex, Hex))
    ensures |HexToBytes(r.0)| == |HexToBytes(s)| / 2
    ensures HexToBytes(r.0) + HexToBytes(r.1) == HexToBytes(s)
  {
    var bytes := HexToBytes(s);
    var half := |bytes| / 2;
    HexRoundTrip(bytes[..half]);
    HexRoundTrip(bytes[half..]);
    assert bytes[..half] + bytes[half..] == bytes;
    (BytesToHex(bytes[..half]), BytesToHex(bytes[half..]))
  }

  /** Splitting a concatenation of two equally long keys gives back both keys' bytes, as hex. */
  lemma SplitOfConcat(a: seq<Byte>, b: seq<Byte>)
    requires |a| == |b|
    ensures SplitKeys(ConcatKeys(BytesToHex(a), BytesToHex(b))) == (BytesToHex(a), BytesToHex(b))
  {
    HexRoundTrip(a);
    HexRoundTrip(b);
    var c := ConcatKeys(BytesToHex(a), BytesToHex(b));
    var bytes := HexToBytes(c);
    assert bytes == a + b;
    assert bytes[..|bytes| / 2] == a;
    assert bytes[|bytes| / 2..] == b;
  }

  datatype KeyStoreError = InternalError(message: string)

  /** The store: a map from tag to the one hex string kept under it. */
  class KeyChain {
    var store: map<string, Hex>

    constructor ()
      ensures store == map[]
    {
      store := map[];
    }

    /** `setSymmetricKey`: puts the key's hex under `tag`, replacing whatever was there. */
    method SetSymmetricKey(tag: string, key: Hex)
      modifies this
      ensures store == old(store)[tag := key]
    {
      store := store[tag := key];
    }

    /** `getSymmetricKey`: the string under `tag`, or the empty string when there is none. */
    method GetSymmetricKey(tag: string) returns (key: string)
      ensures tag in store ==> key == store[tag]
      ensures tag !in store ==> key == ""
    {
      key := if tag in store then store[tag] else "";
    }

    /** `setKeys`: puts the concatenated pair under `tag`, replacing whatever was there. */
    method SetKeys(tag: string, keyA: Hex, keyB: Hex)
      modifies this
      ensures store == old(store)[tag := ConcatKeys(keyA, keyB)]
    {
      store := store[tag := ConcatKeys(keyA, keyB)];
    }

    /** `getKeys`: the split pair under `tag`; an absent tag is an internal error. */
    method GetKeys(tag: string) returns (r: Result<(Hex, Hex), KeyStoreError>)
      ensures tag !in store ==> r == Failure(InternalError("unable to find keys"))
      ensures tag in store ==> r == Success(SplitKeys(store[tag]))
      ensures tag in store ==> HexToBytes(r.value.0) + HexToBytes(r.value.1) == HexToBytes(store[tag])
      ensures tag in store ==> |HexToBytes(r.value.0)| == |HexToBytes(store[tag])| / 2
    {
      if tag !in store {
        return Failure(InternalError("unable to find keys"));
      }
      r := Success(SplitKeys(store[tag]));
    }

    /** `deleteKeys`: removes `tag` and nothing else. */
    method DeleteKeys(tag: string)
      modifies this
      ensures store == old(store) - {tag}
      ensures tag !in store
      ensures forall t :: t != tag ==> (t in store <==> t in old(store)) && (t in store ==> store[t] == old(store)[t])
    {
      store := store - {tag};
    }

    /** `checkKeys`: whether anything is stored under `tag`. */
    method CheckKeys(tag: string) returns (present: bool)
      ensures present <==> tag in store
    {
      present := tag in store;
    }
  }

  /**
    A symmetric key set under a tag is read back unchanged, and a key pair
    set later under the same tag replaces it: both kinds share one tag space,
    so the symmetric-key reader then sees the concatenated pair. A pair set
    as two equally long keys is read back as those two keys, and a deletion
    removes whichever kind the tag held.
   */
  method SharedTagSpace(kc: KeyChain, tag: string, key: Hex, a: seq<Byte>, b: seq<Byte>)
    returns (symmetric: string, overwritten: string, pair: Result<(Hex, Hex), KeyStoreError>, present: bool)
    requires |a| == |b|
    modifies kc
    ensures symmetric == key
    ensures overwritten == ConcatKeys(BytesToHex(a), BytesToHex(b))
    ensures pair == Success((BytesToHex(a), BytesToHex(b)))
    ensures !present && tag !in kc.store
  {
    var ha, hb := BytesToHex(a), BytesToHex(b);
    kc.SetSymmetricKey(tag, key);
    symmetric := kc.GetSymmetricKey(tag);
    kc.SetKeys(tag, ha, hb);
    overwritten := kc.GetSymmetricKey(tag);
    pair := kc.GetKeys(tag);
    SplitOfConcat(a, b);
    kc.DeleteKeys(tag);
    present := kc.CheckKeys(tag);
  }
}
