/** The hand-written 256-bit encoder behind the AgentWalletSet consent, against EIP-712. */
module Consent {
  import opened Options

  type byte = x: int | 0 <= x < 256

  // ---------- hexadecimal, as the runtime writes and reads it ----------

  type nibble = n: int | 0 <= n < 16

  // A character of text: a hexadecimal digit in either case, or any other.
  datatype Symbol = Digit(value: nibble, upper: bool) | Other(c: char)

  type Text = seq<Symbol>

  predicate IsHex(s: Text) {
    forall i :: 0 <= i < |s| ==> s[i].Digit?
  }

  function NatToHex(v: nat): Text {
    if v < 16 then [Digit(v, false)] else NatToHex(v / 16) + [Digit(v % 16, false)]
  }

  /** A negative number is written with its sign. */
  function ToHex(v: int): Text {
    if v < 0 then [Other('-')] + NatToHex(-v) else NatToHex(v)
  }

  function EvenHex(s: Text): Text {
    if |s| % 2 != 0 then [Digit(0, false)] + s else s
  }

  /** Bytes are read in pairs of digits, up to the first pair that is not one. */
  function FromHex(s: Text): seq<byte> {
    if |s| < 2 || !s[0].Digit? || !s[1].Digit? then []
    else [PairValue(s[0], s[1])] + FromHex(s[2..])
  }

  function PairValue(hi: Symbol, lo: Symbol): byte
    requires hi.Digit? && lo.Digit?
  {
    hi.value * 16 + lo.value
  }

  lemma {:induction false} FromHexAppend(s: Text, hi: Symbol, lo: Symbol)
    requires IsHex(s) && |s| % 2 == 0 && hi.Digit? && lo.Digit?
    ensures FromHex(s + [hi, lo]) == FromHex(s) + [PairValue(hi, lo)]
    decreases |s|
  {
    if s == [] {
      assert (s + [hi, lo])[2..] == [];
    } else {
      FromHexAppend(s[2..], hi, lo);
      assert (s + [hi, lo])[2..] == s[2..] + [hi, lo];
    }
  }

  // ---------- big-endian numbers ----------

  function BigEndian(s: seq<byte>): nat {
    if s == [] then 0 else BigEndian(s[..|s| - 1]) * 256 + s[|s| - 1]
  }

  function Pow256(k: nat): nat
    ensures Pow256(k) > 0
  {
    if k == 0 then 1 else 256 * Pow256(k - 1)
  }

  const TWO_TO_256: nat := Pow256(32)

  function Zeros(k: nat): (r: seq<byte>)
    ensures |r| == k
  {
    seq(k, _ => 0)
  }

  lemma {:induction false} LeadingZerosDoNotCount(k: nat, s: seq<byte>)
    ensures BigEndian(Zeros(k) + s) == BigEndian(s)
    decreases k + |s|
  {
    if s != [] {
      LeadingZerosDoNotCount(k, s[..|s| - 1]);
      assert (Zeros(k) + s)[..k + |s| - 1] == Zeros(k) + s[..|s| - 1];
    } else if k > 0 {
      LeadingZerosDoNotCount(k - 1, []);
      assert (Zeros(k) + s)[..k - 1] == Zeros(k - 1) + [];
    }
  }

  lemma SameDigit(x: nat, c: byte, y: nat, d: byte)
    requires x * 256 + c == y * 256 + d
    ensures x == y && c == d
  {
    assert x == (x * 256 + c) / 256 && y == (y * 256 + d) / 256;
  }

  /** The integer a string of hexadecimal digits denotes. */
  function HexNumber(s: Text): nat
    requires IsHex(s)
  {
    if s == [] then 0 else HexNumber(s[..|s| - 1]) * 16 + s[|s| - 1].value
  }

  lemma HexNumberOfPair(front: Text, hi: Symbol, lo: Symbol)
    requires IsHex(front) && hi.Digit? && lo.Digit?
    ensures IsHex(front + [hi, lo]) && HexNumber(front + [hi, lo]) == HexNumber(front) * 256 + PairValue(hi, lo)
  {
    var s, n := front + [hi, lo], |front|;
    assert s[..n + 1] == front + [hi] && s[..n + 1][..n] == front;
    assert HexNumber(s[..n + 1]) == HexNumber(front) * 16 + hi.value;
  }

  lemma {:induction false} HexDenotesItsBytes(s: Text)
    requires IsHex(s) && |s| % 2 == 0
    ensures |FromHex(s)| == |s| / 2 && BigEndian(FromHex(s)) == HexNumber(s)
    decreases |s|
  {
    if s != [] {
      var n := |s| - 2;
      var front, hi, lo := s[..n], s[n], s[n + 1];
      assert s == front + [hi, lo];
      HexDenotesItsBytes(front);
      HexNumberOfPair(front, hi, lo);
      FromHexAppend(front, hi, lo);
      BigEndianAppend(FromHex(front), PairValue(hi, lo));
    }
  }

  lemma BigEndianAppend(s: seq<byte>, b: byte)
    ensures BigEndian(s + [b]) == BigEndian(s) * 256 + b
  {
    assert (s + [b])[..|s|] == s;
  }

  function Pow16(k: nat): nat {
    if k == 0 then 1 else 16 * Pow16(k - 1)
  }

  lemma {:induction false} Pow16Twice(k: nat)
    ensures Pow16(2 * k) == Pow256(k)
  {
    if k > 0 {
      Pow16Twice(k - 1);
      assert Pow16(2 * k) == 16 * Pow16(2 * k - 1) && Pow16(2 * k - 1) == 16 * Pow16(2 * k - 2);
    }
  }

  lemma HexSplits(v: nat)
    requires v >= 16
    ensures IsHex(NatToHex(v / 16)) ==>
      IsHex(NatToHex(v)) && HexNumber(NatToHex(v)) == HexNumber(NatToHex(v / 16)) * 16 + v % 16
    ensures |NatToHex(v)| == |NatToHex(v / 16)| + 1
  {
    var front := NatToHex(v / 16);
    assert NatToHex(v)[..|front|] == front;
  }

  /** The digits written for a number denote it. */
  lemma {:induction false} HexDenotes(v: nat)
    ensures IsHex(NatToHex(v)) && |NatToHex(v)| > 0 && HexNumber(NatToHex(v)) == v
  {
    if v < 16 {
      assert NatToHex(v)[..0] == [];
    } else {
      HexDenotes(v / 16);
      HexSplits(v);
    }
  }

  lemma DivideBound(v: nat, p: nat)
    ensures v / 16 < p <==> v < 16 * p
  {
  }

  /** And there are as few of them as the number allows. */
  lemma {:induction false} HexIsShort(v: nat, k: nat)
    requires k > 0
    ensures |NatToHex(v)| <= k <==> v < Pow16(k)
    decreases v
  {
    if v < 16 {
      PowIsPositive(k - 1);
    } else {
      HexSplits(v);
      if k == 1 {
        HexDenotes(v / 16);
        assert Pow16(1) == 16 * Pow16(0);
      } else {
        HexIsShort(v / 16, k - 1);
        DivideBound(v, Pow16(k - 1));
      }
    }
  }

  lemma {:induction false} PowIsPositive(k: nat)
    ensures Pow16(k) > 0
  {
    if k > 0 {
      PowIsPositive(k - 1);
    }
  }

  lemma {:induction false} LeadingZeroDigit(s: Text)
    requires IsHex(s)
    ensures HexNumber([Digit(0, false)] + s) == HexNumber(s)
  {
    if s == [] {
      assert ([Digit(0, false)] + s)[..0] == [];
    } else {
      LeadingZeroDigit(s[..|s| - 1]);
      assert ([Digit(0, false)] + s)[..|s|] == [Digit(0, false)] + s[..|s| - 1];
    }
  }

  /** The padded digits of a number read back as bytes that denote it, as few as it allows. */
  lemma HexReadsBack(v: nat, k: nat)
    requires k > 0
    ensures BigEndian(FromHex(EvenHex(NatToHex(v)))) == v
    ensures |FromHex(EvenHex(NatToHex(v)))| <= k <==> v < Pow256(k)
  {
    var digits := NatToHex(v);
    HexDenotes(v);
    LeadingZeroDigit(digits);
    HexDenotesItsBytes(EvenHex(digits));
    HexIsShort(v, 2 * k);
    Pow16Twice(k);
  }

  lemma {:induction false} HexNumberIsBounded(s: Text, k: nat)
    requires IsHex(s) && |s| <= 2 * k && |s| % 2 == 0
    ensures HexNumber(s) < Pow256(k)
    decreases |s|
  {
    if s != [] {
      var n := |s| - 2;
      HexNumberIsBounded(s[..n], k - 1);
      HexNumberOfPair(s[..n], s[n], s[n + 1]);
      assert s == s[..n] + [s[n], s[n + 1]];
    }
  }

  // ---------- the padding of one word ----------

  /** None stands for the error a copy to a negative offset raises. */
  function Padded(bytes: seq<byte>): Option<seq<byte>> {
    if |bytes| > 32 then None else Some(Zeros(32 - |bytes|) + bytes)
  }

  function Pad32(value: int): Option<seq<byte>> {
    Padded(FromHex(EvenHex(ToHex(value))))
  }

  /** pad32 writes the 32-byte big-endian form of exactly the numbers that have one. It fails on larger
      numbers, and writes zeros for every negative one. */
  lemma PadIsBigEndianIff(value: int)
    ensures Pad32(value).None? <==> value >= TWO_TO_256
    ensures Pad32(value).Some? ==> |Pad32(value).value| == 32
    ensures (Pad32(value).Some? && BigEndian(Pad32(value).value) == value) <==> 0 <= value < TWO_TO_256
    ensures value < 0 ==> Pad32(value) == Some(Zeros(32))
  {
    if value >= 0 {
      HexReadsBack(value, 32);
      var bytes := FromHex(EvenHex(ToHex(value)));
      if |bytes| <= 32 {
        LeadingZerosDoNotCount(32 - |bytes|, bytes);
      }
    } else {
      NegativeReadsEmpty(value);
      LeadingZerosDoNotCount(32, []);
      assert Zeros(32) + [] == Zeros(32);
    }
  }

  /** The sign is no digit, and it is in the first pair. */
  lemma NegativeReadsEmpty(value: int)
    requires value < 0
    ensures FromHex(EvenHex(ToHex(value))) == []
  {
    var s := ToHex(value);
    HexDenotes(-value);
    assert s[0] == Other('-') && !s[0].Digit?;
  }

  class Buffer {
    const bytes: array<byte>

    constructor Alloc(n: nat)
      ensures fresh(bytes) && bytes[..] == Zeros(n)
    {
      bytes := new byte[n](_ => 0);
      new;
      assert bytes[..] == Zeros(n);
    }

    /** buf.copy(out, offset): overwrites from the offset on; a negative offset is an error. */
    method CopyFrom(source: seq<byte>, offset: int) returns (ok: bool)
      requires offset + |source| <= bytes.Length
      modifies bytes
      ensures ok <==> offset >= 0
      ensures ok ==> bytes[..] == old(bytes[..offset]) + source + old(bytes[offset + |source|..])
      ensures !ok ==> bytes[..] == old(bytes[..])
    {
      if offset < 0 {
        return false;
      }
      var i := 0;
      while i < |source|
        invariant 0 <= i <= |source|
        invariant bytes[..offset] == old(bytes[..offset])
        invariant bytes[offset..offset + i] == source[..i]
        invariant bytes[offset + i..] == old(bytes[offset + i..])
      {
        bytes[offset + i] := source[i];
        i := i + 1;
      }
      assert bytes[..] == bytes[..offset] + bytes[offset..offset + i] + bytes[offset + i..];
      return true;
    }
  }

  lemma PaddedWord(value: nat, word: seq<byte>)
    requires Pad32(value) == Some(word)
    ensures |word| == 32 && BigEndian(word) == value
  {
    PadIsBigEndianIff(value);
  }

  /** The buffer for a number's digits, filled in place. */
  method WriteDigits(digits: Text) returns (ok: bool, out: Buffer)
    ensures fresh(out) && fresh(out.bytes)
    ensures ok <==> Padded(FromHex(EvenHex(digits))).Some?
    ensures ok ==> Padded(FromHex(EvenHex(digits))) == Some(out.bytes[..])
  {
    var hex := digits;
    if |hex| % 2 != 0 {
      hex := [Digit(0, false)] + hex;
    }
    var buf := FromHex(hex);
    out := new Buffer.Alloc(32);
    ok := out.CopyFrom(buf, 32 - |buf|);
    if ok {
      assert out.bytes[..] == Zeros(32 - |buf|) + buf;
    }
  }

  method WritePad32(value: int) returns (ok: bool, out: Buffer)
    ensures fresh(out) && fresh(out.bytes)
    ensures ok <==> Pad32(value).Some?
    ensures ok ==> Pad32(value) == Some(out.bytes[..])
    ensures ok && value >= 0 ==> out.bytes.Length == 32 && BigEndian(out.bytes[..]) == value
  {
    ok, out := WriteDigits(ToHex(value));
    if ok && value >= 0 {
      PaddedWord(value, out.bytes[..]);
    }
  }

  // ---------- the signed message ----------

  /** Forty hexadecimal digits after the 0x, in whatever case. */
  predicate IsAddress(a: Text) {
    |a| == 40 && IsHex(a)
  }

  datatype Message = Message(agentId: int, newWallet: Text, owner: Text, deadline: int)

  predicate Valid(m: Message) {
    && 0 <= m.agentId < TWO_TO_256 && 0 <= m.deadline < TWO_TO_256
    && IsAddress(m.newWallet) && IsAddress(m.owner)
  }

  function Pad32Address(digits: Text): Option<seq<byte>> {
    Padded(FromHex(digits))
  }

  /** None when a part cannot be encoded. */
  function StructPreimage(typeHash: seq<byte>, m: Message): Option<seq<byte>> {
    var id, wallet, owner, deadline :=
      Pad32(m.agentId), Pad32Address(m.newWallet), Pad32Address(m.owner), Pad32(m.deadline);
    if id.Some? && wallet.Some? && owner.Some? && deadline.Some?
    then Some(typeHash + id.value + wallet.value + owner.value + deadline.value) else None
  }

  // EIP-712, "Definition of encodeData": the type hash, then each member in 32 bytes, an integer as
  // its big-endian 256 bits and an address as the integer it denotes.
  function EncodeUint(v: nat): seq<byte> {
    seq(32, i requires 0 <= i < 32 => v / Pow256(31 - i) % 256)
  }

  function EncodeData(typeHash: seq<byte>, m: Message): seq<byte>
    requires Valid(m)
  {
    typeHash + EncodeUint(m.agentId) + EncodeUint(HexNumber(m.newWallet)) + EncodeUint(HexNumber(m.owner))
      + EncodeUint(m.deadline)
  }

  lemma {:induction false} DigitsOfBigEndian(s: seq<byte>, i: nat)
    requires i < |s|
    ensures BigEndian(s) / Pow256(|s| - 1 - i) % 256 == s[i]
  {
    var n := |s| - 1;
    if i == n {
      SameDigit(BigEndian(s) / 256, BigEndian(s) % 256, BigEndian(s[..n]), s[n]);
    } else {
      DigitsOfBigEndian(s[..n], i);
      SameDigit(BigEndian(s) / 256, BigEndian(s) % 256, BigEndian(s[..n]), s[n]);
      DivideTwice(BigEndian(s), Pow256(n - 1 - i));
    }
  }

  lemma DivideTwice(v: nat, p: nat)
    requires p > 0
    ensures v / (256 * p) == v / 256 / p
  {
    var q := v / 256 / p;
    var r := v / 256 % p;
    var t := v % 256;
    assert v / 256 == p * q + r;
    assert v == 256 * (p * q + r) + t;
    assert 256 * (p * q + r) + t == (256 * p) * q + (256 * r + t);
    QuotientIs(v, 256 * p, q, 256 * r + t);
  }

  lemma QuotientIs(v: nat, d: nat, q: nat, r: nat)
    requires v == d * q + r && r < d
    ensures v / d == q
  {
    UniqueQuotient(d, q, r, v / d, v % d);
  }

  lemma UniqueQuotient(d: nat, q: nat, r: nat, q2: nat, r2: nat)
    requires r < d && r2 < d && d * q + r == d * q2 + r2
    ensures q == q2
  {
    assert d * (q - q2) == r2 - r && d * (q2 - q) == r - r2;
    if q > q2 {
      AtLeastOnce(d, q - q2);
    } else if q < q2 {
      AtLeastOnce(d, q2 - q);
    }
  }

  lemma AtLeastOnce(d: nat, x: nat)
    requires x >= 1
    ensures d * x >= d
  {
    assert d * x == d + d * (x - 1);
  }

  /** A 32-byte word is the standard's encoding of the number it denotes. */
  lemma WordIsEncoding(word: seq<byte>)
    requires |word| == 32
    ensures word == EncodeUint(BigEndian(word))
  {
    forall i | 0 <= i < 32 ensures word[i] == EncodeUint(BigEndian(word))[i] {
      DigitsOfBigEndian(word, i);
    }
  }

  lemma AddressWord(a: Text)
    requires IsAddress(a)
    ensures Pad32Address(a).Some? && |Pad32Address(a).value| == 32
    ensures BigEndian(Pad32Address(a).value) == HexNumber(a)
  {
    HexDenotesItsBytes(a);
    LeadingZerosDoNotCount(12, FromHex(a));
  }

  /** The buffer that is hashed is the standard's encoding of the message. */
  lemma PreimageIsEncodeData(typeHash: seq<byte>, m: Message)
    requires Valid(m)
    ensures StructPreimage(typeHash, m) == Some(EncodeData(typeHash, m))
    ensures |typeHash| == 32 ==> |EncodeData(typeHash, m)| == 160
  {
    PadIsBigEndianIff(m.agentId);
    PadIsBigEndianIff(m.deadline);
    AddressWord(m.newWallet);
    AddressWord(m.owner);
    WordIsEncoding(Pad32(m.agentId).value);
    WordIsEncoding(Pad32(m.deadline).value);
    WordIsEncoding(Pad32Address(m.newWallet).value);
    WordIsEncoding(Pad32Address(m.owner).value);
  }

  lemma SameWord(v: nat, w: nat)
    requires v < TWO_TO_256 && w < TWO_TO_256 && EncodeUint(v) == EncodeUint(w)
    ensures v == w
  {
    PadIsBigEndianIff(v);
    PadIsBigEndianIff(w);
    WordIsEncoding(Pad32(v).value);
    WordIsEncoding(Pad32(w).value);
  }

  /** Two messages have one preimage exactly when they have the same numbers and the same accounts. */
  lemma PreimageIsInjective(typeHash: seq<byte>, m: Message, n: Message)
    requires Valid(m) && Valid(n)
    ensures StructPreimage(typeHash, m) == StructPreimage(typeHash, n) <==>
      && m.agentId == n.agentId && m.deadline == n.deadline
      && HexNumber(m.newWallet) == HexNumber(n.newWallet) && HexNumber(m.owner) == HexNumber(n.owner)
  {
    PreimageIsEncodeData(typeHash, m);
    PreimageIsEncodeData(typeHash, n);
    var a, b, h := EncodeData(typeHash, m), EncodeData(typeHash, n), |typeHash|;
    if a == b {
      HexNumberIsBounded(m.newWallet, 32);
      HexNumberIsBounded(n.newWallet, 32);
      HexNumberIsBounded(m.owner, 32);
      HexNumberIsBounded(n.owner, 32);
      WordsOf(typeHash, m);
      WordsOf(typeHash, n);
      SameWord(m.agentId, n.agentId);
      SameWord(HexNumber(m.newWallet), HexNumber(n.newWallet));
      SameWord(HexNumber(m.owner), HexNumber(n.owner));
      SameWord(m.deadline, n.deadline);
    }
  }

  lemma WordsOf(typeHash: seq<byte>, m: Message)
    requires Valid(m)
    ensures var a, h := EncodeData(typeHash, m), |typeHash|;
      && |a| == h + 128
      && a[h..h + 32] == EncodeUint(m.agentId)
      && a[h + 32..h + 64] == EncodeUint(HexNumber(m.newWallet))
      && a[h + 64..h + 96] == EncodeUint(HexNumber(m.owner))
      && a[h + 96..] == EncodeUint(m.deadline)
  {
  }
}
