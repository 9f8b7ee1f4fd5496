/** Byte strings: exclusive or, big-endian numbers, PKCS#7 padding and standard Base64. */
module Bytes {
  import opened Common

  type byte = b: int | 0 <= b < 256

  // ----- exclusive or

  function Xor(a: nat, b: nat): nat
    decreases a + b
  {
    if a == 0 && b == 0 then 0 else 2 * Xor(a / 2, b / 2) + (a + b) % 2
  }

  lemma {:induction false} XorUndone(a: nat, b: nat)
    ensures Xor(Xor(a, b), b) == a
    decreases a + b
  {
    if a != 0 || b != 0 {
      XorUndone(a / 2, b / 2);
      var x := Xor(a / 2, b / 2);
      assert Xor(a, b) == 2 * x + (a + b) % 2;
      assert Xor(a, b) / 2 == x;
    }
  }

  lemma {:induction false} XorBound(a: nat, b: nat, k: nat)
    requires a < Power(2, k) && b < Power(2, k)
    ensures Xor(a, b) < Power(2, k)
    decreases k
  {
    if k > 0 && (a != 0 || b != 0) { XorBound(a / 2, b / 2, k - 1); }
  }

  function Power(base: nat, k: nat): nat { if k == 0 then 1 else base * Power(base, k - 1) }

  function XorByte(a: byte, b: byte): byte {
    assert Power(2, 8) == 256;
    XorBound(a, b, 8);
    Xor(a, b)
  }

  function XorBytes(a: seq<byte>, b: seq<byte>): (r: seq<byte>)
    requires |a| == |b|
    ensures |r| == |a|
  {
    seq(|a|, i requires 0 <= i < |a| => XorByte(a[i], b[i]))
  }

  lemma XorBytesUndone(a: seq<byte>, b: seq<byte>)
    requires |a| == |b|
    ensures XorBytes(XorBytes(a, b), b) == a
  {
    forall i | 0 <= i < |a| ensures XorByte(XorByte(a[i], b[i]), b[i]) == a[i] { XorUndone(a[i], b[i]); }
  }

  // ----- big-endian numbers

  function BigEndian(v: nat, k: nat): (r: seq<byte>)
    ensures |r| == k
  {
    if k == 0 then [] else BigEndian(v / 256, k - 1) + [v % 256]
  }

  function Number(s: seq<byte>): nat {
    if s == [] then 0 else 256 * Number(s[..|s| - 1]) + s[|s| - 1]
  }

  lemma {:induction false} NumberOfBigEndian(v: nat, k: nat)
    requires v < Power(256, k)
    ensures Number(BigEndian(v, k)) == v
  {
    if k > 0 {
      NumberOfBigEndian(v / 256, k - 1);
      assert BigEndian(v, k)[..k - 1] == BigEndian(v / 256, k - 1);
    }
  }

  lemma {:induction false} BigEndianOfNumber(s: seq<byte>)
    ensures Number(s) < Power(256, |s|) && BigEndian(Number(s), |s|) == s
  {
    if s != [] { BigEndianOfNumber(s[..|s| - 1]); }
  }

  // ----- padding to blocks of 16

  function Repeat(b: byte, n: nat): (r: seq<byte>)
    ensures |r| == n && forall i :: 0 <= i < n ==> r[i] == b
  {
    seq(n, i => b)
  }

  function Padding(n: nat): (p: int)
    ensures 1 <= p <= 16 && (n + p) % 16 == 0
  {
    16 - n % 16
  }

  function Pad(data: seq<byte>): (r: seq<byte>)
    ensures r != [] && |r| % 16 == 0
  {
    data + Repeat(Padding(|data|), Padding(|data|))
  }

  function Unpad(data: seq<byte>): Option<seq<byte>>
    requires data != [] && |data| % 16 == 0
  {
    var p := data[|data| - 1];
    if p == 0 || p > 16 || data[|data| - p..] != Repeat(p, p) then None else Some(data[..|data| - p])
  }

  /** Unpadding accepts exactly what padding produces, and gives back what was padded. */
  lemma UnpadExactly(data: seq<byte>, plain: seq<byte>)
    requires data != [] && |data| % 16 == 0
    ensures Unpad(data) == Some(plain) <==> data == Pad(plain)
  {
    if Unpad(data) == Some(plain) {
      var p := data[|data| - 1];
      assert Padding(|plain|) == p by { assert |plain| == |data| - p; }
      assert data == plain + Repeat(p, p);
    }
    if data == Pad(plain) {
      var p := Padding(|plain|);
      assert data[|data| - 1] == p;
      assert data[|data| - p..] == Repeat(p, p);
      assert data[..|data| - p] == plain;
    }
  }

  // ----- Base64

  function Letter(i: nat): char
    requires i < 64
  {
    if i < 26 then 'A' + i as char
    else if i < 52 then 'a' + (i - 26) as char
    else if i < 62 then '0' + (i - 52) as char
    else if i == 62 then '+' else '/'
  }

  function LetterValue(c: char): (r: Option<nat>)
    ensures r.Some? ==> r.value < 64 && Letter(r.value) == c
  {
    if 'A' <= c <= 'Z' then Some((c - 'A') as nat)
    else if 'a' <= c <= 'z' then Some((c - 'a') as nat + 26)
    else if '0' <= c <= '9' then Some((c - '0') as nat + 52)
    else if c == '+' then Some(62) else if c == '/' then Some(63) else None
  }

  lemma LetterRoundTrip(i: nat)
    requires i < 64
    ensures LetterValue(Letter(i)) == Some(i) && Letter(i) != '=' && Letter(i) != '\r' && Letter(i) != '\n'
  {
  }

  function Encode64(data: seq<byte>): string {
    if data == [] then ""
    else if |data| == 1 then Quad(data[0], 0, 0)[..2] + "=="
    else if |data| == 2 then Quad(data[0], data[1], 0)[..3] + "="
    else Quad(data[0], data[1], data[2]) + Encode64(data[3..])
  }

  /** Three bytes as four letters of six bits each. */
  function Quad(x: byte, y: byte, z: byte): (q: string)
    ensures |q| == 4
  {
    [Letter(x / 4), Letter(x % 4 * 16 + y / 16), Letter(y % 16 * 4 + z / 64), Letter(z % 64)]
  }

  /** Line breaks are skipped wherever they stand. */
  function Unbroken(s: string): string {
    if s == "" then "" else (if s[0] == '\r' || s[0] == '\n' then "" else [s[0]]) + Unbroken(s[1..])
  }

  /** Four letters at a time; only the last group may be padded, and its unused bits are ignored. */
  function DecodeQuads(s: string): Option<seq<byte>> {
    if s == "" then Some([])
    else if |s| < 4 then None
    else
      var a, b, c, d := LetterValue(s[0]), LetterValue(s[1]), LetterValue(s[2]), LetterValue(s[3]);
      if a.None? || b.None? then None
      else if c.None? then
        if s[2] == '=' && s[3] == '=' && |s| == 4 then Some([a.value * 4 + b.value / 16]) else None
      else if d.None? then
        if s[3] == '=' && |s| == 4 then Some([a.value * 4 + b.value / 16, b.value % 16 * 16 + c.value / 4]) else None
      else
        var rest := DecodeQuads(s[4..]);
        if rest.None? then None
        else Some([a.value * 4 + b.value / 16, b.value % 16 * 16 + c.value / 4, c.value % 4 * 64 + d.value] + rest.value)
  }

  function Decode64(s: string): Option<seq<byte>> { DecodeQuads(Unbroken(s)) }

  lemma {:induction false} EncodedUnbroken(data: seq<byte>)
    ensures forall i :: 0 <= i < |Encode64(data)| ==> Encode64(data)[i] != '\r' && Encode64(data)[i] != '\n'
  {
    if |data| >= 3 { EncodedUnbroken(data[3..]); }
  }

  lemma {:induction false} UnbrokenSame(s: string)
    requires forall i :: 0 <= i < |s| ==> s[i] != '\r' && s[i] != '\n'
    ensures Unbroken(s) == s
  {
    if s != "" { UnbrokenSame(s[1..]); }
  }

  /** Three bytes split into four groups of six bits and put together again. */
  lemma Regroup(x: byte, y: byte, z: byte)
    ensures x / 4 * 4 + (x % 4 * 16 + y / 16) / 16 == x
    ensures (x % 4 * 16 + y / 16) % 16 * 16 + (y % 16 * 4 + z / 64) / 4 == y
    ensures (y % 16 * 4 + z / 64) % 4 * 64 + z % 64 == z
  {
  }

  lemma QuadLetters(x: byte, y: byte, z: byte)
    ensures var q := Quad(x, y, z);
      && LetterValue(q[0]) == Some(x / 4) && LetterValue(q[1]) == Some(x % 4 * 16 + y / 16)
      && LetterValue(q[2]) == Some(y % 16 * 4 + z / 64) && LetterValue(q[3]) == Some(z % 64)
  {
    LetterRoundTrip(x / 4);
    LetterRoundTrip(x % 4 * 16 + y / 16);
    LetterRoundTrip(y % 16 * 4 + z / 64);
    LetterRoundTrip(z % 64);
  }

  lemma FirstQuad(x: byte, y: byte, z: byte, text: string, rest: seq<byte>)
    requires DecodeQuads(text) == Some(rest)
    ensures DecodeQuads(Quad(x, y, z) + text) == Some([x, y, z] + rest)
  {
    hide *;
    var q := Quad(x, y, z);
    var s := q + text;
    QuadLetters(x, y, z);
    assert s[0] == q[0] && s[1] == q[1] && s[2] == q[2] && s[3] == q[3] && s[4..] == text;
    LettersDecode(s, x, y, z, rest);
  }

  lemma LettersDecode(s: string, x: byte, y: byte, z: byte, rest: seq<byte>)
    requires |s| >= 4 && DecodeQuads(s[4..]) == Some(rest)
    requires LetterValue(s[0]) == Some(x / 4) && LetterValue(s[1]) == Some(x % 4 * 16 + y / 16)
    requires LetterValue(s[2]) == Some(y % 16 * 4 + z / 64) && LetterValue(s[3]) == Some(z % 64)
    ensures DecodeQuads(s) == Some([x, y, z] + rest)
  {
    Regroup(x, y, z);
    hide LetterValue;
  }

  lemma LastQuad(s: string, x: byte, y: byte, one: bool)
    requires |s| == 4 && LetterValue(s[0]) == Some(x / 4) && LetterValue(s[1]) == Some(x % 4 * 16 + y / 16) && s[3] == '='
    requires if one then y == 0 && s[2] == '=' else LetterValue(s[2]) == Some(y % 16 * 4)
    ensures DecodeQuads(s) == Some(if one then [x] else [x, y])
  {
    Regroup(x, y, 0);
    assert LetterValue('=') == None;
    hide LetterValue;
  }

  lemma ShortRoundTrip(data: seq<byte>)
    requires 1 <= |data| <= 2
    ensures DecodeQuads(Encode64(data)) == Some(data)
  {
    var x, y := data[0], if |data| == 2 then data[1] else 0;
    var s, q := Encode64(data), Quad(x, y, 0);
    assert s == if |data| == 1 then q[..2] + "==" else q[..3] + "=";
    hide *;
    QuadLetters(x, y, 0);
    assert s[0] == q[0] && s[1] == q[1] && s[3] == '=' && (|data| == 2 ==> s[2] == q[2]);
    LastQuad(s, x, y, |data| == 1);
    assert data == if |data| == 1 then [x] else [x, y];
  }

  lemma {:induction false} QuadsRoundTrip(data: seq<byte>)
    ensures DecodeQuads(Encode64(data)) == Some(data)
  {
    if 1 <= |data| <= 2 {
      ShortRoundTrip(data);
    } else if |data| > 2 {
      QuadsRoundTrip(data[3..]);
      FirstQuad(data[0], data[1], data[2], Encode64(data[3..]), data[3..]);
      assert [data[0], data[1], data[2]] + data[3..] == data;
      hide DecodeQuads, Quad;
    }
  }

  lemma Base64RoundTrip(data: seq<byte>)
    ensures Decode64(Encode64(data)) == Some(data)
  {
    EncodedUnbroken(data);
    UnbrokenSame(Encode64(data));
    QuadsRoundTrip(data);
  }
}

/** The encrypted fields attached to a Google Play purchase. */
module Payload {
  import opened Common
  import opened Bytes
  import Decimal

  /** A keyed block cipher on blocks of 16 bytes. */
  datatype Cipher = Cipher(enc: (seq<byte>, seq<byte>) -> seq<byte>, dec: (seq<byte>, seq<byte>) -> seq<byte>)

  /** For every key it accepts, decryption inverts encryption on blocks, and the other way round. */
  ghost predicate IsBlockCipher(aes: Cipher) {
    && (forall key, b {:trigger aes.enc(key, b)} :: |key| == 16 && |b| == 16 ==> |aes.enc(key, b)| == 16 && aes.dec(key, aes.enc(key, b)) == b)
    && (forall key, b {:trigger aes.dec(key, b)} :: |key| == 16 && |b| == 16 ==> |aes.dec(key, b)| == 16 && aes.enc(key, aes.dec(key, b)) == b)
  }

  function EncBlock(aes: Cipher, key: seq<byte>, b: seq<byte>): (r: seq<byte>)
    requires IsBlockCipher(aes) && |key| == 16 && |b| == 16
    ensures |r| == 16 && aes.dec(key, r) == b
  {
    aes.enc(key, b)
  }

  function DecBlock(aes: Cipher, key: seq<byte>, b: seq<byte>): (r: seq<byte>)
    requires IsBlockCipher(aes) && |key| == 16 && |b| == 16
    ensures |r| == 16 && aes.enc(key, r) == b
  {
    aes.dec(key, b)
  }

  // ----- cipher block chaining

  function Chain(aes: Cipher, key: seq<byte>, iv: seq<byte>, data: seq<byte>): (r: seq<byte>)
    requires IsBlockCipher(aes) && |key| == 16 && |iv| == 16 && |data| % 16 == 0
    ensures |r| == |data|
    decreases |data|
  {
    if data == [] then []
    else
      var y := EncBlock(aes, key, XorBytes(data[..16], iv));
      y + Chain(aes, key, y, data[16..])
  }

  function Unchain(aes: Cipher, key: seq<byte>, iv: seq<byte>, data: seq<byte>): (r: seq<byte>)
    requires IsBlockCipher(aes) && |key| == 16 && |iv| == 16 && |data| % 16 == 0
    ensures |r| == |data|
    decreases |data|
  {
    if data == [] then []
    else XorBytes(DecBlock(aes, key, data[..16]), iv) + Unchain(aes, key, data[..16], data[16..])
  }

  lemma {:induction false} UnchainOfChain(aes: Cipher, key: seq<byte>, iv: seq<byte>, data: seq<byte>)
    requires IsBlockCipher(aes) && |key| == 16 && |iv| == 16 && |data| % 16 == 0
    ensures Unchain(aes, key, iv, Chain(aes, key, iv, data)) == data
    decreases |data|
  {
    if data != [] {
      var x := XorBytes(data[..16], iv);
      var y := EncBlock(aes, key, x);
      var c := Chain(aes, key, iv, data);
      assert c[..16] == y && c[16..] == Chain(aes, key, y, data[16..]);
      UnchainOfChain(aes, key, y, data[16..]);
      XorBytesUndone(data[..16], iv);
      assert data == data[..16] + data[16..];
    }
  }

  lemma {:induction false} ChainOfUnchain(aes: Cipher, key: seq<byte>, iv: seq<byte>, data: seq<byte>)
    requires IsBlockCipher(aes) && |key| == 16 && |iv| == 16 && |data| % 16 == 0
    ensures Chain(aes, key, iv, Unchain(aes, key, iv, data)) == data
    decreases |data|
  {
    if data != [] {
      var x := DecBlock(aes, key, data[..16]);
      var p := Unchain(aes, key, iv, data);
      assert p[..16] == XorBytes(x, iv) && p[16..] == Unchain(aes, key, data[..16], data[16..]);
      XorBytesUndone(x, iv);
      ChainOfUnchain(aes, key, data[..16], data[16..]);
      assert data == data[..16] + data[16..];
    }
  }

  // ----- the payload

  datatype Error = BadKey | BadBase64 | BadLength | BadPadding | BadProfile

  /** A key of 24 or 32 bytes makes a cipher, but it cannot also be the initial block: the call panics. */
  datatype Outcome<T> = Ok(value: T) | Err(error: Error) | Panic

  predicate CipherKey(key: seq<byte>) { |key| == 16 || |key| == 24 || |key| == 32 }

  function Encrypt(aes: Cipher, data: seq<byte>, key: seq<byte>): Outcome<string>
    requires IsBlockCipher(aes)
  {
    if !CipherKey(key) then Err(BadKey)
    else if |key| != 16 then Panic
    else Ok(Encode64(Chain(aes, key, key, Pad(data))))
  }

  function Decrypt(aes: Cipher, value: string, key: seq<byte>): Outcome<seq<byte>>
    requires IsBlockCipher(aes)
  {
    var data := Decode64(value);
    if data.None? then Err(BadBase64)
    else if !CipherKey(key) then Err(BadKey)
    else if data.value == [] || |data.value| % 16 != 0 then Err(BadLength)
    else if |key| != 16 then Panic
    else
      var plain := Unpad(Unchain(aes, key, key, data.value));
      if plain.None? then Err(BadPadding) else Ok(plain.value)
  }

  /** Decryption undoes encryption on every byte string. */
  lemma DecryptUndoesEncrypt(aes: Cipher, data: seq<byte>, key: seq<byte>)
    requires IsBlockCipher(aes) && |key| == 16
    ensures Encrypt(aes, data, key).Ok? && Decrypt(aes, Encrypt(aes, data, key).value, key) == Ok(data)
  {
    DecryptExactly(aes, Encrypt(aes, data, key).value, data, key);
  }

  /** Decryption yields `data` for exactly the texts that stand for the bytes encryption produces. */
  lemma DecryptExactly(aes: Cipher, value: string, data: seq<byte>, key: seq<byte>)
    requires IsBlockCipher(aes) && |key| == 16
    ensures Decrypt(aes, value, key) == Ok(data) <==> Decode64(value) == Decode64(Encrypt(aes, data, key).value)
  {
    var c := Chain(aes, key, key, Pad(data));
    Base64RoundTrip(c);
    UnchainOfChain(aes, key, key, Pad(data));
    UnpadExactly(Pad(data), data);
    var d := Decode64(value);
    if d.Some? && d.value != [] && |d.value| % 16 == 0 {
      UnpadExactly(Unchain(aes, key, key, d.value), data);
      ChainOfUnchain(aes, key, key, d.value);
    }
  }

  /** Different byte strings have different encryptions. */
  lemma EncryptInjective(aes: Cipher, a: seq<byte>, b: seq<byte>, key: seq<byte>)
    requires IsBlockCipher(aes) && |key| == 16 && Encrypt(aes, a, key) == Encrypt(aes, b, key)
    ensures a == b
  {
    DecryptUndoesEncrypt(aes, a, key);
    DecryptUndoesEncrypt(aes, b, key);
  }

  // ----- profiles

  type uint64 = n: int | 0 <= n < 0x1_0000_0000_0000_0000
  type int32 = n: int | -0x8000_0000 <= n < 0x8000_0000

  datatype Profile = Profile(orderId: uint64, productId: int32)

  /** The 32 bits of a signed number read as an unsigned one, and back. */
  function Unsigned(n: int32): (u: nat) { if n < 0 then n + 0x1_0000_0000 else n }

  function Signed(u: nat): int32
    requires u < 0x1_0000_0000
  {
    if u < 0x8000_0000 then u else u - 0x1_0000_0000
  }

  lemma PowerValues()
    ensures Power(256, 4) == 0x1_0000_0000 && Power(256, 8) == 0x1_0000_0000_0000_0000
  {
    assert Power(256, 2) == 65536;
    assert Power(256, 4) == 256 * (256 * Power(256, 2));
    assert Power(256, 6) == 256 * (256 * Power(256, 4));
    assert Power(256, 8) == 256 * (256 * Power(256, 6));
  }

  function ProfileBytes(p: Profile): (r: seq<byte>)
    ensures |r| == 12
  {
    BigEndian(p.orderId, 8) + BigEndian(Unsigned(p.productId), 4)
  }

  function BytesProfile(data: seq<byte>): Profile
    requires |data| == 12
  {
    PowerValues();
    BigEndianOfNumber(data[..8]);
    BigEndianOfNumber(data[8..]);
    Profile(Number(data[..8]), Signed(Number(data[8..])))
  }

  /** Profiles and strings of 12 bytes correspond one to one. */
  lemma ProfileBytesExactly(p: Profile, data: seq<byte>)
    requires |data| == 12
    ensures BytesProfile(data) == p <==> data == ProfileBytes(p)
  {
    PowerValues();
    if data == ProfileBytes(p) {
      NumberOfBigEndian(p.orderId, 8);
      NumberOfBigEndian(Unsigned(p.productId), 4);
      assert data[..8] == BigEndian(p.orderId, 8) && data[8..] == BigEndian(Unsigned(p.productId), 4);
    }
    if BytesProfile(data) == p {
      BigEndianOfNumber(data[..8]);
      BigEndianOfNumber(data[8..]);
      assert data == data[..8] + data[8..];
    }
  }

  function EncryptProfile(aes: Cipher, p: Profile, key: seq<byte>): Outcome<string>
    requires IsBlockCipher(aes)
  {
    Encrypt(aes, ProfileBytes(p), key)
  }

  function DecryptProfile(aes: Cipher, value: string, key: seq<byte>): Outcome<Profile>
    requires IsBlockCipher(aes)
  {
    var data := Decrypt(aes, value, key);
    if data.Panic? then Panic
    else if data.Err? then Err(data.error)
    else if |data.value| != 12 then Err(BadProfile)
    else Ok(BytesProfile(data.value))
  }

  /** Every profile, negative product IDs included, survives the round trip, and nothing else decrypts to it. */
  lemma ProfileRoundTrip(aes: Cipher, p: Profile, value: string, key: seq<byte>)
    requires IsBlockCipher(aes) && |key| == 16
    ensures EncryptProfile(aes, p, key).Ok? && DecryptProfile(aes, EncryptProfile(aes, p, key).value, key) == Ok(p)
    ensures DecryptProfile(aes, value, key) == Ok(p) <==> Decode64(value) == Decode64(EncryptProfile(aes, p, key).value)
  {
    var data := ProfileBytes(p);
    DecryptUndoesEncrypt(aes, data, key);
    ProfileBytesExactly(p, data);
    DecryptExactly(aes, value, data, key);
    var r := Decrypt(aes, value, key);
    if r.Ok? && |r.value| == 12 { ProfileBytesExactly(p, r.value); }
  }

  // ----- user IDs

  function TextBytes(s: string): (r: seq<byte>)
    requires forall i :: 0 <= i < |s| ==> s[i] < 128 as char
    ensures |r| == |s| && forall i :: 0 <= i < |s| ==> r[i] == s[i] as int
  {
    seq(|s|, i requires 0 <= i < |s| => s[i] as int)
  }

  lemma {:induction false} ShowIsAscii(n: nat)
    ensures forall i :: 0 <= i < |Decimal.Show(n)| ==> Decimal.Show(n)[i] < 128 as char
  {
    if n >= 10 { ShowIsAscii(n / 10); }
  }

  function EncryptUid(aes: Cipher, uid: uint64, key: seq<byte>): Outcome<string>
    requires IsBlockCipher(aes)
  {
    ShowIsAscii(uid);
    Encrypt(aes, TextBytes(Decimal.Show(uid)), key)
  }

  /** Two users never share an encrypted ID. */
  lemma UidsStayApart(aes: Cipher, a: uint64, b: uint64, key: seq<byte>)
    requires IsBlockCipher(aes) && |key| == 16 && EncryptUid(aes, a, key) == EncryptUid(aes, b, key)
    ensures a == b
  {
    ShowIsAscii(a);
    ShowIsAscii(b);
    var s, t := Decimal.Show(a), Decimal.Show(b);
    EncryptInjective(aes, TextBytes(s), TextBytes(t), key);
    assert forall i :: 0 <= i < |s| ==> s[i] as int == TextBytes(s)[i] && t[i] as int == TextBytes(t)[i];
    assert s == t;
    Decimal.ShowInjective(a, b);
  }

  // ----- what a created order carries through the provider

  datatype Extra = Extra(accountId: string, profileId: string)

  function BuildExtra(aes: Cipher, uid: uint64, orderId: uint64, productId: int32, key: seq<byte>): Outcome<Extra>
    requires IsBlockCipher(aes)
  {
    var account, profile := EncryptUid(aes, uid, key), EncryptProfile(aes, Profile(orderId, productId), key);
    if account.Panic? || profile.Panic? then Panic
    else if account.Err? then Err(account.error)
    else if profile.Err? then Err(profile.error)
    else Ok(Extra(account.value, profile.value))
  }

  /**
   What the client attaches to its purchase leads the provider's answer back to exactly the order
   and product it was made for, and tells users apart.
   */
  lemma ExtraComesBack(aes: Cipher, uid: uint64, orderId: uint64, productId: int32, other: uint64, key: seq<byte>)
    requires IsBlockCipher(aes) && |key| == 16
    ensures BuildExtra(aes, uid, orderId, productId, key).Ok?
    ensures var extra := BuildExtra(aes, uid, orderId, productId, key).value;
      && DecryptProfile(aes, extra.profileId, key) == Ok(Profile(orderId, productId))
      && (EncryptUid(aes, other, key) == Ok(extra.accountId) ==> other == uid)
  {
    var p := Profile(orderId, productId);
    ProfileRoundTrip(aes, p, "", key);
    hide IsBlockCipher, DecryptProfile, Encrypt, Decrypt;
    UidEncrypts(aes, uid, key);
    if EncryptUid(aes, other, key) == EncryptUid(aes, uid, key) { UidsStayApart(aes, other, uid, key); }
  }

  lemma UidEncrypts(aes: Cipher, uid: uint64, key: seq<byte>)
    requires IsBlockCipher(aes) && |key| == 16
    ensures EncryptUid(aes, uid, key).Ok?
  {
    ShowIsAscii(uid);
    DecryptUndoesEncrypt(aes, TextBytes(Decimal.Show(uid)), key);
  }
}
