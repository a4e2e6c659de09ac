/** Object names: a digest in lowercase base32, unpadded (section 6 of RFC 4648). */
module Base32 {
  import opened Arithmetic

  type Octet = x: int | 0 <= x < 256

  const ALPHABET := "abcdefghijklmnopqrstuvwxyz234567"
  const NAME_LENGTH := 52

  predicate IsNameChar(c: char) {
    'a' <= c <= 'z' || '2' <= c <= '7'
  }

  /** Whether `name` is a well-formed object name. */
  predicate IsName(name: string) {
    |name| == NAME_LENGTH && forall i | 0 <= i < |name| :: IsNameChar(name[i])
  }

  /** The digest as a big-endian number. */
  function Value256(digest: seq<Octet>): nat {
    if digest == [] then 0 else Value256(digest[..|digest| - 1]) * 256 + digest[|digest| - 1]
  }

  function Digit(c: char): (d: nat)
    requires IsNameChar(c)
    ensures d < 32 && ALPHABET[d] == c
  {
    if 'a' <= c <= 'z' then (c - 'a') as int else (c - '2') as int + 26
  }

  function Letter(d: nat): (c: char)
    requires d < 32
  {
    ALPHABET[d]
  }

  lemma DigitOf(d: nat)
    requires d < 32
    ensures IsNameChar(Letter(d)) && Digit(Letter(d)) == d
  {
    if d < 26 {
      LetterOf(d);
    } else {
      FigureOf(d);
    }
    hide Letter;
  }

  lemma LetterOf(d: nat)
    requires d < 26
    ensures Letter(d) == 'a' + d as char
  {
  }

  lemma FigureOf(d: nat)
    requires 26 <= d < 32
    ensures Letter(d) == '2' + (d - 26) as char
  {
  }

  ghost predicate InAlphabet(name: string) {
    forall i :: 0 <= i < |name| ==> IsNameChar(name[i])
  }

  /** The name read as a big-endian base-32 number. */
  function Value32(name: string): nat
    requires InAlphabet(name)
  {
    if name == [] then 0 else Value32(name[..|name| - 1]) * 32 + Digit(name[|name| - 1])
  }

  /** What section 6 of RFC 4648 asks of an unpadded encoding: the digest's bits, zero-padded. */
  ghost predicate Encodes(name: string, digest: seq<Octet>) {
    && InAlphabet(name)
    && |name| == (8 * |digest| + 4) / 5
    && Value32(name) == Value256(digest) * Pow2(5 * |name| - 8 * |digest|)
  }

  // ---------- The buffer ----------

  lemma ShiftedMod(buffer: nat, p: nat, k: nat, byte: Octet)
    requires p * k == 256
    ensures p > 0 && ((buffer * 256) % 65536 + byte) % (p * 256) == (buffer % p) * 256 + byte
  {
    var q, r, t := buffer / p, buffer % p, buffer * 256 / 65536;
    var y := (buffer * 256) % 65536;
    assert q * p * 256 == q * (p * 256);
    assert t * k * (p * 256) == t * (p * k * 256);
    assert (q - t * k) * (p * 256) == q * (p * 256) - t * k * (p * 256);
    DivModUnique(y + byte, q - t * k, r * 256 + byte, p * 256);
  }

  /** A byte shifted in pushes old bits out of sixteen, never one still owed. */
  lemma KeepsOwed(buffer: nat, bits: nat, byte: Octet)
    requires bits < 5
    ensures ((buffer * 256) % 65536 + byte) % Pow2(bits + 8) == (buffer % Pow2(bits)) * 256 + byte
  {
    PowSum(bits, 8 - bits);
    PowSum(bits, 8);
    SmallPowers();
    hide Pow2;
    ShiftedMod(buffer, Pow2(bits), Pow2(8 - bits), byte);
  }

  lemma DigitsAbove(h: int, l: nat, r: nat, p: nat)
    requires l < 32 && r < p
    ensures ((h * 32 + l) * p + r) % (p * 32) == l * p + r
  {
    assert h * 32 * p == h * (p * 32);
    assert (h * 32 + l) * p == h * (p * 32) + l * p;
    assert (31 - l) * p >= 0;
    DivModUnique((h * 32 + l) * p + r, h, l * p + r, p * 32);
  }

  lemma SplitMod(buffer: nat, p: nat)
    requires p > 0
    ensures buffer % (p * 32) == (buffer / p % 32) * p + buffer % p
  {
    var d := buffer / p;
    assert d * p + buffer % p == buffer;
    assert d / 32 * 32 + d % 32 == d;
    DigitsAbove(d / 32, d % 32, buffer % p, p);
  }

  /** Taking the top five of the bits owed leaves the rest. */
  lemma TakeFive(buffer: nat, bits: nat)
    ensures buffer % Pow2(bits + 5) == (buffer / Pow2(bits) % 32) * Pow2(bits) + buffer % Pow2(bits)
  {
    PowSum(bits, 5);
    SmallPowers();
    hide Pow2;
    SplitMod(buffer, Pow2(bits));
  }

  lemma DigitsPadded(h: int, r: nat, t: int, p: nat, q: nat)
    requires p * q == 32 && r < p
    ensures ((h * p + r) * q - t * 65536) % 32 == r * q
  {
    assert (h * p + r) * q == h * (p * q) + r * q;
    assert (p - 1 - r) * q >= 0;
    DivModUnique((h * p + r) * q - t * 65536, h - 2048 * t, r * q, 32);
  }

  lemma PaddedMod(buffer: nat, p: nat, q: nat)
    requires p * q == 32
    ensures p > 0 && (buffer * q) % 65536 % 32 == (buffer % p) * q
  {
    var x := buffer * q;
    assert buffer / p * p + buffer % p == buffer;
    DigitsPadded(buffer / p, buffer % p, x / 65536, p, q);
  }

  lemma PadLast(buffer: nat, bits: nat)
    requires 0 < bits < 5
    ensures (buffer * Pow2(5 - bits)) % 65536 % 32 == (buffer % Pow2(bits)) * Pow2(5 - bits)
  {
    PowSum(bits, 5 - bits);
    SmallPowers();
    hide Pow2;
    PaddedMod(buffer, Pow2(bits), Pow2(5 - bits));
  }

  lemma Append(name: string, d: nat)
    requires InAlphabet(name) && d < 32
    ensures InAlphabet(name + [Letter(d)]) && Value32(name + [Letter(d)]) == Value32(name) * 32 + d
  {
    DigitOf(d);
    hide Letter, Digit;
    var longer := name + [Letter(d)];
    assert longer[..|longer| - 1] == name;
  }

  /** The letters written and the `bits` still owed are together the bytes read. */
  ghost predicate Owes(read: seq<Octet>, name: string, buffer: nat, bits: nat) {
    && InAlphabet(name)
    && 5 * |name| + bits == 8 * |read|
    && Value256(read) == Value32(name) * Pow2(bits) + buffer % Pow2(bits)
  }

  lemma Regroup(n: nat, p: nat, d: nat)
    ensures (n * 32 + d) * p == n * (p * 32) + d * p
  {
    assert n * 32 * p == n * (p * 32);
  }

  lemma Begin(read: seq<Octet>)
    requires read == []
    ensures Owes(read, "", 0, 0)
  {
  }

  /** The buffer moved up eight places and the byte set in, sixteen bits wide. */
  function ShiftIn(buffer: nat, byte: Octet): (b: nat)
    ensures b < 65536
  {
    (buffer * 256) % 65536 + byte
  }

  function NextLetter(buffer: nat, bits: nat): char {
    Letter(buffer / Pow2(bits) % 32)
  }

  lemma Emit(read: seq<Octet>, name: string, buffer: nat, bits: nat)
    requires bits >= 5 && Owes(read, name, buffer, bits)
    ensures Owes(read, name + [NextLetter(buffer, bits - 5)], buffer, bits - 5)
  {
    var d := buffer / Pow2(bits - 5) % 32;
    Append(name, d);
    TakeFive(buffer, bits - 5);
    PowSum(bits - 5, 5);
    SmallPowers();
    Regroup(Value32(name), Pow2(bits - 5), d);
    hide Pow2, Value32, Value256, Letter;
  }

  lemma Shift(read: seq<Octet>, byte: Octet, name: string, buffer: nat, bits: nat)
    requires bits < 5 && Owes(read, name, buffer, bits)
    ensures Owes(read + [byte], name, ShiftIn(buffer, byte), bits + 8)
  {
    KeepsOwed(buffer, bits, byte);
    PowSum(bits, 8);
    SmallPowers();
    assert (read + [byte])[..|read|] == read;
    assert Value256(read + [byte]) == Value256(read) * 256 + byte;
    var n := Value32(name);
    hide Pow2, Value32, Value256;
    assert n * (Pow2(bits) * 256) == n * Pow2(bits) * 256;
  }

  lemma Padded(n: nat, p: nat, q: nat, r: nat)
    requires p * q == 32
    ensures n * 32 + r * q == (n * p + r) * q
  {
    assert (n * p + r) * q == n * (p * q) + r * q;
  }

  /** The last letter carries the bits still owed, zeroes below them. */
  function LastLetter(buffer: nat, bits: nat): char
    requires 0 < bits < 5
  {
    Letter((buffer * Pow2(5 - bits)) % 65536 % 32)
  }

  lemma Close(digest: seq<Octet>, name: string, buffer: nat, bits: nat)
    requires 0 < bits < 5 && Owes(digest, name, buffer, bits)
    ensures Encodes(name + [LastLetter(buffer, bits)], digest)
  {
    PadLast(buffer, bits);
    PowSum(bits, 5 - bits);
    SmallPowers();
    Append(name, (buffer * Pow2(5 - bits)) % 65536 % 32);
    Padded(Value32(name), Pow2(bits), Pow2(5 - bits), buffer % Pow2(bits));
    Lengths(|name| + 1, |digest|, 5 - bits);
    hide Pow2, Value32, Value256, Letter;
  }

  lemma Lengths(m: nat, n: nat, pad: nat)
    requires pad < 5 && 5 * m == 8 * n + pad
    ensures m == (8 * n + 4) / 5 && 5 * m - 8 * n == pad
  {
  }

  lemma Whole(digest: seq<Octet>, name: string, buffer: nat)
    requires Owes(digest, name, buffer, 0)
    ensures Encodes(name, digest)
  {
    Lengths(|name|, |digest|, 0);
    SmallPowers();
    hide Value32, Value256, Pow2;
  }

  /** A digest of thirty-two bytes is always named well. */
  lemma DigestIsNamed(name: string, digest: seq<Octet>)
    requires Encodes(name, digest) && |digest| == 32
    ensures IsName(name)
  {
  }

  /** The encoder, its buffer sixteen bits wide and truncating. */
  method Encode(digest: seq<Octet>) returns (name: string)
    ensures Encodes(name, digest)
  {
    hide *;
    name := "";
    var buffer := 0;
    var bits := 0;
    Begin(digest[..0]);
    for i := 0 to |digest|
      invariant 0 <= bits < 5 && Owes(digest[..i], name, buffer, bits)
    {
      Shift(digest[..i], digest[i], name, buffer, bits);
      assert digest[..i] + [digest[i]] == digest[..i + 1];
      buffer := ShiftIn(buffer, digest[i]);
      bits := bits + 8;
      while bits >= 5
        invariant 0 <= bits && Owes(digest[..i + 1], name, buffer, bits)
      {
        Emit(digest[..i + 1], name, buffer, bits);
        bits := bits - 5;
        name := name + [NextLetter(buffer, bits)];
      }
    }
    assert digest[..|digest|] == digest;
    if bits > 0 {
      Close(digest, name, buffer, bits);
      name := name + [LastLetter(buffer, bits)];
    } else {
      Whole(digest, name, buffer);
    }
  }

  // ---------- Decoding ----------

  /** The `n` low bytes of a number, big-endian. */
  function Octets(value: nat, n: nat): (d: seq<Octet>)
    ensures |d| == n
  {
    if n == 0 then [] else Octets(value / 256, n - 1) + [value % 256]
  }

  function Shed(value: nat, unit: nat): (v: nat)
    requires unit > 0
  {
    value / unit
  }

  function Decode(name: string): seq<Octet>
    requires InAlphabet(name)
  {
    Octets(Shed(Value32(name), Pow2(5 * |name| % 8)), 5 * |name| / 8)
  }

  lemma {:induction false} OctetsOfValue(digest: seq<Octet>)
    ensures Octets(Value256(digest), |digest|) == digest
  {
    if digest != [] {
      var init := digest[..|digest| - 1];
      OctetsOfValue(init);
      assert Value256(digest) / 256 == Value256(init) && Value256(digest) % 256 == digest[|digest| - 1];
      assert digest == init + [digest[|digest| - 1]];
    }
  }

  /** A name says exactly which digest it encodes. */
  lemma DecodeInverts(name: string, digest: seq<Octet>)
    requires Encodes(name, digest)
    ensures Decode(name) == digest
  {
    var pad := 5 * |name| - 8 * |digest|;
    assert 5 * |name| / 8 == |digest| && 5 * |name| % 8 == pad;
    DivModUnique(Value32(name), Value256(digest), 0, Pow2(pad));
    OctetsOfValue(digest);
  }

  lemma {:induction false} Value32Injective(a: string, b: string)
    requires InAlphabet(a) && InAlphabet(b) && |a| == |b| && Value32(a) == Value32(b)
    ensures a == b
  {
    if a != [] {
      var x, y := a[..|a| - 1], b[..|b| - 1];
      assert Value32(x) == Value32(y) && Digit(a[|a| - 1]) == Digit(b[|b| - 1]);
      Value32Injective(x, y);
      assert a == x + [a[|a| - 1]] && b == y + [b[|b| - 1]];
    }
  }

  /** And a digest has exactly one name. */
  lemma NameIsUnique(a: string, b: string, digest: seq<Octet>)
    requires Encodes(a, digest) && Encodes(b, digest)
    ensures a == b
  {
    Value32Injective(a, b);
  }
}
