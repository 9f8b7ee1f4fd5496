/** What the bytes and texts look like, letter by letter, apart from their being undone again. */
module PayloadFormat {
  import opened Common
  import opened Bytes
  import opened Payload
  import Decimal

  // ----- numbers

  lemma PowerPositive(base: nat, k: nat)
    requires base > 0
    ensures Power(base, k) > 0
  {
  }

  /** Dividing twice is dividing by the product. */
  lemma DivDiv(v: nat, a: nat, b: nat)
    requires a > 0 && b > 0
    ensures a * b > 0 && v / a / b == v / (a * b)
  {
    var q, r, r2 := v / a / b, v % a, (v / a) % b;
    Product(a, b, q, r2);
    Quotient(v, a * b, q, a * r2 + r);
  }

  lemma Product(a: nat, b: nat, q: nat, r: nat)
    requires a > 0 && r < b
    ensures a * b > 0 && a * (b * q + r) == (a * b) * q + a * r && 0 <= a * r <= a * b - a
  {
    Grows(a, b);
    Grows(a, b - r);
    Spread(a, b, r);
    Regroup3(a, b, q, r);
  }

  lemma Spread(a: int, b: int, r: int)
    ensures a * (b - r) == a * b - a * r
  {
  }

  lemma Regroup3(a: int, b: int, q: int, r: int)
    ensures a * (b * q + r) == (a * b) * q + a * r
  {
  }

  lemma Quotient(v: int, m: int, q: int, r: int)
    requires m > 0 && v == m * q + r && 0 <= r < m
    ensures v / m == q
  {
    var d := v / m - q;
    assert m * (v / m) - m * q == m * d;
    if d >= 1 { Grows(m, d); } else if d <= -1 { Grows(m, -d); }
  }

  lemma Grows(m: int, d: int)
    requires m > 0 && d >= 1
    ensures m * d >= m && m * -d <= -m
  {
  }

  /** Byte `i` of a big-endian number of `k` bytes. */
  lemma {:induction false} BigEndianAt(v: nat, k: nat, i: nat)
    requires i < k
    ensures Power(256, k - 1 - i) > 0 && BigEndian(v, k)[i] == v / Power(256, k - 1 - i) % 256
  {
    PowerPositive(256, k - 1 - i);
    if i < k - 1 {
      BigEndianAt(v / 256, k - 1, i);
      var m := Power(256, k - 2 - i);
      PowerPositive(256, k - 2 - i);
      DivDiv(v, 256, m);
      assert Power(256, k - 1 - i) == 256 * m;
      assert BigEndian(v, k)[i] == BigEndian(v / 256, k - 1)[i];
    }
  }

  /** The 32 bits of the product ID as an unsigned number, in two's complement. */
  function Bits32(n: int): int { if n >= 0 then n else 0x1_0000_0000 + n }

  /** A profile is eight bytes of order ID and four of product ID, each most significant byte first. */
  lemma ProfileLayout(p: Profile, i: nat)
    requires i < 12
    ensures |ProfileBytes(p)| == 12
    ensures i < 8 ==> Power(256, 7 - i) > 0 && ProfileBytes(p)[i] == p.orderId / Power(256, 7 - i) % 256
    ensures i >= 8 ==> Power(256, 11 - i) > 0 && ProfileBytes(p)[i] == Bits32(p.productId) / Power(256, 11 - i) % 256
  {
    if i < 8 { BigEndianAt(p.orderId, 8, i); } else { BigEndianAt(Unsigned(p.productId), 4, i - 8); }
  }

  /** And a decrypted profile is read in the same places. */
  lemma ProfileRead(data: seq<byte>, p: Profile, i: nat)
    requires |data| == 12 && BytesProfile(data) == p && i < 12
    ensures i < 8 ==> Power(256, 7 - i) > 0 && data[i] == p.orderId / Power(256, 7 - i) % 256
    ensures i >= 8 ==> Power(256, 11 - i) > 0 && data[i] == Bits32(p.productId) / Power(256, 11 - i) % 256
  {
    ProfileBytesExactly(p, data);
    ProfileLayout(p, i);
  }

  // ----- exclusive or, padding, chaining

  /** Bit by bit, the sum without carry. */
  lemma {:induction false} XorBits(a: nat, b: nat, k: nat)
    ensures Power(2, k) > 0 && Xor(a, b) / Power(2, k) % 2 == (a / Power(2, k) + b / Power(2, k)) % 2
    decreases k
  {
    hide Xor, Power;
    PowerPositive(2, k);
    PowerStep(2, k);
    if k > 0 {
      var m := Power(2, k - 1);
      PowerPositive(2, k - 1);
      XorBits(a / 2, b / 2, k - 1);
      DivDiv(a, 2, m);
      DivDiv(b, 2, m);
      DivDiv(Xor(a, b), 2, m);
      XorHalf(a, b);
    } else {
      XorLast(a, b);
    }
  }

  lemma PowerStep(base: nat, k: nat)
    ensures Power(base, k) == if k == 0 then 1 else base * Power(base, k - 1)
  {
  }

  lemma XorHalf(a: nat, b: nat)
    ensures Xor(a, b) / 2 == Xor(a / 2, b / 2)
  {
  }

  lemma XorLast(a: nat, b: nat)
    ensures Xor(a, b) % 2 == (a + b) % 2
  {
  }

  lemma XorBytesAt(a: seq<byte>, b: seq<byte>, i: nat, k: nat)
    requires |a| == |b| && i < |a|
    ensures Power(2, k) > 0 && XorBytes(a, b)[i] / Power(2, k) % 2 == (a[i] / Power(2, k) + b[i] / Power(2, k)) % 2
  {
    XorBits(a[i], b[i], k);
  }

  /** The data, then as many bytes as are missing to a multiple of 16, or 16, each equal to their number. */
  lemma PadIs(data: seq<byte>)
    ensures |Pad(data)| % 16 == 0 && |data| < |Pad(data)| <= |data| + 16 && Pad(data)[..|data|] == data
    ensures forall i :: |data| <= i < |Pad(data)| ==> Pad(data)[i] == |Pad(data)| - |data|
  {
  }

  /** Block `i` of a byte string. */
  function Block(data: seq<byte>, i: nat): seq<byte>
    requires 16 * i + 16 <= |data|
  {
    data[16 * i..16 * i + 16]
  }

  /** Decrypting one block yields the plain block combined with the block before it, the first with the initial block. */
  lemma {:induction false} ChainBlock(aes: Cipher, key: seq<byte>, iv: seq<byte>, data: seq<byte>, i: nat)
    requires IsBlockCipher(aes) && |key| == 16 && |iv| == 16 && |data| % 16 == 0 && 16 * i + 16 <= |data|
    ensures var c := Chain(aes, key, iv, data);
      aes.dec(key, Block(c, i)) == XorBytes(Block(data, i), if i == 0 then iv else Block(c, i - 1))
    decreases i
  {
    var y := EncBlock(aes, key, XorBytes(data[..16], iv));
    var c, rest := Chain(aes, key, iv, data), Chain(aes, key, y, data[16..]);
    assert c == y + rest;
    hide IsBlockCipher, XorBytes, Chain;
    if i == 0 {
      assert Block(c, 0) == y && Block(data, 0) == data[..16];
    } else {
      ChainBlock(aes, key, y, data[16..], i - 1);
      assert Block(c, i) == Block(rest, i - 1) && Block(data, i) == Block(data[16..], i - 1);
      if i == 1 { assert Block(c, 0) == y; } else { assert Block(c, i - 1) == Block(rest, i - 2); }
    }
  }

  // ----- Base64

  /** The character code of letter `i`: A to Z, a to z, 0 to 9, plus, slash. */
  function Code(i: nat): int {
    if i < 26 then 65 + i else if i < 52 then 97 + (i - 26) else if i < 62 then 48 + (i - 52) else if i == 62 then 43 else 47
  }

  lemma AlphabetIs(i: nat)
    requires i < 64
    ensures Letter(i) as int == Code(i)
  {
  }

  /** Byte `i`, or zero behind the end. */
  function ByteAt(data: seq<byte>, i: nat): byte { if i < |data| then data[i] else 0 }

  /** The 24 bits of the `g`th group of three bytes as a number. */
  function Group(data: seq<byte>, g: nat): nat { ByteAt(data, 3 * g) * 65536 + ByteAt(data, 3 * g + 1) * 256 + ByteAt(data, 3 * g + 2) }

  lemma QuadDigits(x: byte, y: byte, z: byte)
    ensures var n := x * 65536 + y * 256 + z;
      && x / 4 == n / 262144 % 64 && x % 4 * 16 + y / 16 == n / 4096 % 64
      && y % 16 * 4 + z / 64 == n / 64 % 64 && z % 64 == n % 64
  {
    var n := x * 65536 + y * 256 + z;
    assert n / 262144 == x / 4 && n / 4096 == x * 16 + y / 16 && n / 64 == x * 1024 + y * 4 + z / 64;
  }

  /** The weight of letter `m` of a group. */
  function Weight(m: nat): (r: nat)
    ensures r > 0
  {
    if m == 0 then 262144 else if m == 1 then 4096 else if m == 2 then 64 else 1
  }

  /** The four letters of a group are its 24 bits, six at a time, most significant first. */
  lemma QuadLetter(x: byte, y: byte, z: byte, m: nat)
    requires m < 4
    ensures Quad(x, y, z)[m] as int == Code((x * 65536 + y * 256 + z) / Weight(m) % 64)
  {
    QuadDigits(x, y, z);
    var n := x * 65536 + y * 256 + z;
    AlphabetIs(n / Weight(m) % 64);
    hide Letter, Code;
  }

  lemma EncodedOnce(data: seq<byte>)
    requires data != []
    ensures Encode64(data) == var q := Quad(data[0], ByteAt(data, 1), ByteAt(data, 2));
      if |data| == 1 then q[..2] + "==" else if |data| == 2 then q[..3] + "=" else q + Encode64(data[3..])
  {
  }

  /**
   Letter `m` of group `g`: six bits of the group if at least `m` of its bytes are there, and the pad
   letter otherwise. The text has four letters for every group begun.
   */
  lemma {:induction false} LetterAt(data: seq<byte>, g: nat, m: nat)
    requires 3 * g < |data| && m < 4
    ensures |Encode64(data)| == (|data| + 2) / 3 * 4 && 4 * g + m < |Encode64(data)|
    ensures Encode64(data)[4 * g + m] as int == if 3 * g + m <= |data| then Code(Group(data, g) / Weight(m) % 64) else '=' as int
    decreases |data|
  {
    hide Quad, Encode64, Code, Weight;
    EncodedLength(data);
    EncodedOnce(data);
    QuadLetter(data[0], ByteAt(data, 1), ByteAt(data, 2), m);
    if g > 0 {
      LetterAt(data[3..], g - 1, m);
      GroupShifts(data, g);
      assert Encode64(data)[4 * g + m] == Encode64(data[3..])[4 * (g - 1) + m];
    }
  }

  lemma GroupShifts(data: seq<byte>, g: nat)
    requires |data| > 3 && g > 0
    ensures Group(data, g) == Group(data[3..], g - 1)
  {
  }

  lemma {:induction false} EncodedLength(data: seq<byte>)
    ensures |Encode64(data)| == (|data| + 2) / 3 * 4
  {
    hide Quad, Encode64;
    if data == [] {
      EncodedNone();
    } else {
      EncodedOnce(data);
      if |data| > 2 { EncodedLength(data[3..]); }
    }
  }

  lemma EncodedNone()
    ensures Encode64([]) == ""
  {
  }

  /** A line break anywhere in a text changes nothing. */
  lemma BreaksIgnored(a: string, b: string, c: char)
    requires c == '\r' || c == '\n'
    ensures Decode64(a + [c] + b) == Decode64(a + b)
  {
    hide Unbroken, DecodeQuads;
    UnbrokenBoth(a + [c], b);
    UnbrokenBoth(a, [c]);
    UnbrokenBoth(a, b);
    BreakGone(c);
    assert Unbroken(a) + "" == Unbroken(a);
  }

  lemma BreakGone(c: char)
    requires c == '\r' || c == '\n'
    ensures Unbroken([c]) == ""
  {
  }

  /** What is left of the first letter. */
  function Kept(c: char): string { if c == '\r' || c == '\n' then "" else [c] }

  lemma UnbrokenFirst(s: string)
    ensures Unbroken(s) == if s == "" then "" else Kept(s[0]) + Unbroken(s[1..])
  {
  }

  lemma {:induction false} UnbrokenBoth(a: string, b: string)
    ensures Unbroken(a + b) == Unbroken(a) + Unbroken(b)
  {
    hide Unbroken, Kept;
    UnbrokenFirst(a);
    if a == "" {
      assert a + b == b;
    } else {
      UnbrokenFirst(a + b);
      UnbrokenBoth(a[1..], b);
      assert (a + b)[1..] == a[1..] + b && (a + b)[0] == a[0];
    }
  }

  // ----- the whole

  /** An encrypted text is the Base64 of the chained blocks of the padded data, with the key as initial block. */
  lemma EncryptedIs(aes: Cipher, data: seq<byte>, key: seq<byte>) returns (c: seq<byte>, plain: seq<byte>)
    requires IsBlockCipher(aes) && |key| == 16
    ensures Encrypt(aes, data, key) == Ok(Encode64(c))
    ensures |c| == |plain| && |plain| % 16 == 0 && |data| < |plain| <= |data| + 16 && plain[..|data|] == data
    ensures forall i :: |data| <= i < |plain| ==> plain[i] == |plain| - |data|
    ensures forall i: nat :: 16 * i + 16 <= |c| ==> aes.dec(key, Block(c, i)) == XorBytes(Block(plain, i), if i == 0 then key else Block(c, i - 1))
  {
    plain := Pad(data);
    c := Chain(aes, key, key, plain);
    PadIs(data);
    hide Pad, IsBlockCipher, Chain, XorBytes;
    forall i: nat | 16 * i + 16 <= |c|
      ensures aes.dec(key, Block(c, i)) == XorBytes(Block(plain, i), if i == 0 then key else Block(c, i - 1))
    {
      ChainBlock(aes, key, key, plain, i);
    }
  }

  /** A decimal text: digit `i` from the right is the `i`th decimal digit, and there is no leading zero. */
  lemma {:induction false} ShowDigits(n: nat, i: nat)
    requires i < |Decimal.Show(n)|
    ensures Power(10, i) > 0 && Decimal.Show(n)[|Decimal.Show(n)| - 1 - i] == '0' + (n / Power(10, i) % 10) as char
    ensures n < Power(10, |Decimal.Show(n)|) && (n >= 10 ==> Decimal.Show(n)[0] != '0')
    decreases n
  {
    PowerPositive(10, i);
    var s := Decimal.Show(n);
    if n >= 10 {
      var t := Decimal.Show(n / 10);
      ShowDigits(n / 10, if i > 0 then i - 1 else 0);
      assert s[..|s| - 1] == t;
      FirstDigit(n / 10);
      if i > 0 {
        PowerPositive(10, i - 1);
        DivDiv(n, 10, Power(10, i - 1));
        assert Power(10, i) == 10 * Power(10, i - 1);
        assert s[|s| - 1 - i] == t[|t| - i];
      }
    }
  }

  lemma {:induction false} FirstDigit(n: nat)
    requires n > 0
    ensures Decimal.Show(n)[0] != '0'
  {
    if n >= 10 { FirstDigit(n / 10); }
  }

  /** The account text is the encryption of the user's number in decimal. */
  lemma UidText(aes: Cipher, uid: uint64, key: seq<byte>, data: seq<byte>)
    requires IsBlockCipher(aes) && |data| == |Decimal.Show(uid)|
    requires forall i :: 0 <= i < |data| ==> data[i] == Decimal.Show(uid)[i] as int
    ensures EncryptUid(aes, uid, key) == Encrypt(aes, data, key)
  {
    ShowIsAscii(uid);
    assert TextBytes(Decimal.Show(uid)) == data;
  }

  /** Which texts and keys are refused, in this order: text, key, length, padding; a longer AES key panics. */
  lemma DecryptRefuses(aes: Cipher, value: string, key: seq<byte>)
    requires IsBlockCipher(aes)
    ensures var data, r := Decode64(value), Decrypt(aes, value, key);
      && (r == Err(BadBase64) <==> data.None?)
      && (r == Err(BadKey) <==> data.Some? && |key| != 16 && |key| != 24 && |key| != 32)
      && (r == Err(BadLength) <==> data.Some? && (|key| == 16 || |key| == 24 || |key| == 32) && (data.value == [] || |data.value| % 16 != 0))
      && (r == Panic <==> data.Some? && (|key| == 24 || |key| == 32) && data.value != [] && |data.value| % 16 == 0)
      && (r.Ok? || r == Err(BadPadding) ==> |key| == 16)
  {
  }
}
