/** Password hashing of internal/pwhash/pwhash.go, over an abstract keyed hash and an abstract base64. */
module Pbkdf2 {
  import opened Basics
  import opened Codec

  /** A pseudorandom function keyed by a password, with the length of its output. */
  datatype Prf = Prf(mac: (string, Bytes) -> Bytes, size: nat)

  ghost predicate IsPrf(p: Prf) {
    p.size > 0 && forall pw, m :: |p.mac(pw, m)| == p.size
  }

  /** The four octets of a block number, most significant first; it wraps as a 32-bit counter does. */
  function Octets(i: nat): Bytes {
    BigEndian(4, i)
  }

  lemma OctetsSpell(i: nat)
    ensures |Octets(i)| == 4
    ensures Octets(i)[0] as int == i / 0x100_0000 % 256 && Octets(i)[1] as int == i / 0x1_0000 % 256
    ensures Octets(i)[2] as int == i / 0x100 % 256 && Octets(i)[3] as int == i % 256
  {
    Widths();
    assert Pow256(0) == 1 && Pow256(1) == 0x100 && Pow256(2) == 0x1_0000 && Pow256(3) == 0x100_0000;
    BigEndianAt(4, i, 0);
    BigEndianAt(4, i, 1);
    BigEndianAt(4, i, 2);
    BigEndianAt(4, i, 3);
  }

  // ---- the definition, after section 5.2 of RFC 8018 ----

  function XorByte(a: byte, b: byte): byte {
    ((a as bv8) ^ (b as bv8)) as byte
  }

  function Xor(a: Bytes, b: Bytes): (c: Bytes)
    requires |a| == |b|
    ensures |c| == |a|
  {
    seq(|a|, i requires 0 <= i < |a| => XorByte(a[i], b[i]))
  }

  /** U_k of a block. */
  ghost function U(p: Prf, pw: string, salt: Bytes, i: nat, k: nat): (u: Bytes)
    requires IsPrf(p) && k >= 1
    ensures |u| == p.size
  {
    if k == 1 then p.mac(pw, salt + Octets(i)) else p.mac(pw, U(p, pw, salt, i, k - 1))
  }

  /** T_i, the exclusive or of U_1 to U_c. */
  ghost function T(p: Prf, pw: string, salt: Bytes, c: nat, i: nat): (t: Bytes)
    requires IsPrf(p) && c >= 1
    ensures |t| == p.size
  {
    if c == 1 then U(p, pw, salt, i, 1) else Xor(T(p, pw, salt, c - 1, i), U(p, pw, salt, i, c))
  }

  /** T_1 to T_l, one after the other. */
  ghost function Blocks(p: Prf, pw: string, salt: Bytes, c: nat, l: nat): (b: Bytes)
    requires IsPrf(p) && c >= 1
    ensures |b| == l * p.size
  {
    if l == 0 then []
    else
      assert l * p.size == (l - 1) * p.size + p.size;
      Blocks(p, pw, salt, c, l - 1) + T(p, pw, salt, c, l)
  }

  /** The least number of blocks that hold the key. */
  function BlockCount(size: nat, keyLen: nat): (l: nat)
    requires size > 0
    ensures (l - 1) * size < keyLen <= l * size
  {
    var l := (keyLen + size - 1) / size;
    var r := (keyLen + size - 1) % size;
    assert keyLen + size - 1 == l * size + r;
    assert (l - 1) * size == l * size - size;
    l
  }

  ghost function DerivedKey(p: Prf, pw: string, salt: Bytes, c: nat, keyLen: nat): (dk: Bytes)
    requires IsPrf(p) && c >= 1
    ensures |dk| == keyLen
  {
    Blocks(p, pw, salt, c, BlockCount(p.size, keyLen))[..keyLen]
  }

  // ---- the loops ----

  /** The loops of the source: blocks outside, iterations inside, each folded into the block's buffer. */
  method Derive(p: Prf, pw: string, salt: Bytes, iter: int, keyLen: nat) returns (dk: Bytes)
    requires IsPrf(p)
    ensures dk == DerivedKey(p, pw, salt, if iter < 1 then 1 else iter, keyLen)
  {
    var numBlocks := BlockCount(p.size, keyLen);
    dk := [];
    for block := 1 to numBlocks + 1
      invariant dk == Blocks(p, pw, salt, if iter < 1 then 1 else iter, block - 1)
    {
      var t := DeriveBlock(p, pw, salt, iter, block);
      dk := dk + t[..];
    }
    dk := dk[..keyLen];
  }

  /** One block: the first U, then every further iteration folded into the buffer. */
  method DeriveBlock(p: Prf, pw: string, salt: Bytes, iter: int, block: nat) returns (t: array<byte>)
    requires IsPrf(p)
    ensures t[..] == T(p, pw, salt, if iter < 1 then 1 else iter, block)
  {
    var u := p.mac(pw, salt + Octets(block));
    t := new byte[|u|](i requires 0 <= i < |u| => u[i]);
    assert t[..] == u;
    var n := 2;
    while n <= iter
      invariant 2 <= n && (n <= iter + 1 || n == 2)
      invariant u == U(p, pw, salt, block, n - 1) && t.Length == p.size
      invariant t[..] == T(p, pw, salt, n - 1, block)
    {
      u := p.mac(pw, u);
      XorInto(t, u);
      n := n + 1;
    }
  }

  /** Fold one more U into the buffer, in place. */
  method XorInto(t: array<byte>, u: Bytes)
    requires t.Length == |u|
    modifies t
    ensures t[..] == Xor(old(t[..]), u)
    ensures forall i :: 0 <= i < t.Length ==> t[i] == (old(t[i]) as bv8 ^ u[i] as bv8) as byte
  {
    for x := 0 to t.Length
      invariant forall i :: 0 <= i < x ==> t[i] == XorByte(old(t[i]), u[i])
      invariant forall i :: x <= i < t.Length ==> t[i] == old(t[i])
    {
      t[x] := XorByte(t[x], u[x]);
    }
  }

  /** The first blocks written out, with one iteration and with two. */
  lemma FirstBlocks(p: Prf, pw: string, salt: Bytes)
    requires IsPrf(p)
    ensures var a, b := p.mac(pw, salt + [0, 0, 0, 1]), p.mac(pw, salt + [0, 0, 0, 2]);
            && DerivedKey(p, pw, salt, 1, 2 * p.size) == a + b
            && DerivedKey(p, pw, salt, 2, p.size) == Xor(a, p.mac(pw, a))
  {
    FirstOctets();
    ExactCount(p.size, 1);
    ExactCount(p.size, 2);
    FirstBlock(p, pw, salt, 1);
    FirstBlock(p, pw, salt, 2);
    assert Blocks(p, pw, salt, 1, 2) == Blocks(p, pw, salt, 1, 1) + T(p, pw, salt, 1, 2);
  }

  lemma FirstBlock(p: Prf, pw: string, salt: Bytes, c: nat)
    requires IsPrf(p) && c >= 1
    ensures Blocks(p, pw, salt, c, 1) == T(p, pw, salt, c, 1)
  {
    assert Blocks(p, pw, salt, c, 0) == [];
  }

  lemma FirstOctets()
    ensures Octets(1) == [0, 0, 0, 1] && Octets(2) == [0, 0, 0, 2]
  {
    OctetsSpell(1);
    OctetsSpell(2);
  }

  lemma ExactCount(size: nat, n: nat)
    requires size > 0
    ensures BlockCount(size, n * size) == n
  {
    var l: int := BlockCount(size, n * size);
    LessIfMultipleLess(l - 1, n, size);
    assert (n - 1) * size == n * size - size;
    LessIfMultipleLess(n - 1, l, size);
  }

  /** A shorter key is a prefix of a longer one. */
  lemma ShorterKeyIsPrefix(p: Prf, pw: string, salt: Bytes, c: nat, short: nat, long: nat)
    requires IsPrf(p) && c >= 1 && short <= long
    ensures DerivedKey(p, pw, salt, c, short) == DerivedKey(p, pw, salt, c, long)[..short]
  {
    var l, m := BlockCount(p.size, short), BlockCount(p.size, long);
    BlockCountGrows(p.size, short, long);
    BlocksPrefix(p, pw, salt, c, l, m);
    PrefixOfPrefix(Blocks(p, pw, salt, c, l), Blocks(p, pw, salt, c, m), short, long);
  }

  lemma PrefixOfPrefix(a: Bytes, b: Bytes, short: nat, long: nat)
    requires a <= b && short <= long <= |b| && short <= |a|
    ensures a[..short] == b[..long][..short]
  {
  }

  lemma BlockCountGrows(size: nat, short: nat, long: nat)
    requires size > 0 && short <= long
    ensures BlockCount(size, short) <= BlockCount(size, long)
  {
    var l: int, m: int := BlockCount(size, short), BlockCount(size, long);
    LessIfMultipleLess(l - 1, m, size);
  }

  lemma LessIfMultipleLess(a: int, b: int, size: nat)
    requires size > 0 && a * size < b * size
    ensures a < b
  {
    assert (b - a) * size > 0;
  }

  lemma {:induction false} BlocksPrefix(p: Prf, pw: string, salt: Bytes, c: nat, l: nat, m: nat)
    requires IsPrf(p) && c >= 1 && l <= m
    ensures Blocks(p, pw, salt, c, l) <= Blocks(p, pw, salt, c, m)
    decreases m
  {
    if l < m {
      BlocksPrefix(p, pw, salt, c, l, m - 1);
    }
  }

  // ---- the encoded form ----

  const ALGORITHM := "pbkdf2_sha256"
  const ITERATIONS: nat := 210000
  const KEY_LENGTH: nat := 32

  datatype Base64 = Base64(encode: Bytes -> string, decode: string -> Option<Bytes>)

  /** What section 4 of RFC 4648 gives: decoding undoes encoding, and the alphabet has no dollar sign. */
  ghost predicate IsBase64(b: Base64) {
    forall x :: b.decode(b.encode(x)) == Some(x) && '$' !in b.encode(x)
  }

  /** The pieces between the separators: one more than there are separators. */
  function Split(s: string, sep: char): (parts: seq<string>)
    ensures |parts| >= 1
  {
    if s == "" then [""]
    else
      var rest := Split(s[1..], sep);
      if s[0] == sep then [""] + rest else [[s[0]] + rest[0]] + rest[1..]
  }

  function Join(parts: seq<string>, sep: char): string
    requires parts != []
  {
    if |parts| == 1 then parts[0] else parts[0] + [sep] + Join(parts[1..], sep)
  }

  lemma {:induction false} SplitPlain(a: string, sep: char)
    requires sep !in a
    ensures Split(a, sep) == [a]
  {
    if a != "" {
      SplitPlain(a[1..], sep);
      assert [a[0]] + a[1..] == a;
    }
  }

  lemma {:induction false} SplitFirst(a: string, rest: string, sep: char)
    requires sep !in a
    ensures Split(a + [sep] + rest, sep) == [a] + Split(rest, sep)
  {
    var s := a + [sep] + rest;
    if a == "" {
      assert s[1..] == rest;
    } else {
      SplitFirst(a[1..], rest, sep);
      assert s[1..] == a[1..] + [sep] + rest;
      assert [a[0]] + a[1..] == a;
      assert ([a[1..]] + Split(rest, sep))[1..] == Split(rest, sep);
    }
  }

  /** Splitting undoes joining, for pieces without the separator. */
  lemma {:induction false} SplitJoin(parts: seq<string>, sep: char)
    requires parts != [] && forall i :: 0 <= i < |parts| ==> sep !in parts[i]
    ensures Split(Join(parts, sep), sep) == parts
  {
    if |parts| == 1 {
      SplitPlain(parts[0], sep);
      assert parts == [parts[0]];
    } else {
      SplitJoin(parts[1..], sep);
      SplitFirst(parts[0], Join(parts[1..], sep), sep);
      assert parts == [parts[0]] + parts[1..];
    }
  }

  /** The pieces hold no separator, and joining them gives the string back. */
  lemma {:induction false} JoinSplit(s: string, sep: char)
    ensures Join(Split(s, sep), sep) == s
    ensures forall i :: 0 <= i < |Split(s, sep)| ==> sep !in Split(s, sep)[i]
  {
    if s != "" {
      JoinSplit(s[1..], sep);
      var rest := Split(s[1..], sep);
      assert s == [s[0]] + s[1..];
      if s[0] == sep {
        assert ([""] + rest)[1..] == rest;
      } else {
        assert ([[s[0]] + rest[0]] + rest[1..])[1..] == rest[1..];
      }
    }
  }

  /** Decimal digits, most significant first. */
  function Digits(n: nat): string {
    if n < 10 then [Digit(n)] else Digits(n / 10) + [Digit(n % 10)]
  }

  function Digit(d: nat): char
    requires d < 10
  {
    '0' + d as char
  }

  /** Parse an unsigned decimal; None for anything else. */
  function ParseDigits(s: string): Option<nat> {
    if s == "" then None
    else
      var c := s[|s| - 1];
      if !('0' <= c <= '9') then None
      else
        var d := (c - '0') as nat;
        if |s| == 1 then Some(d)
        else
          var r := ParseDigits(s[..|s| - 1]);
          if r.None? then None else Some(10 * r.value + d)
  }

  /** Parse a signed decimal that fits 64 bits. */
  function ParseInt(s: string): Option<int> {
    var neg := s != "" && s[0] == '-';
    var r := ParseDigits(if s != "" && (s[0] == '-' || s[0] == '+') then s[1..] else s);
    if r.None? then None
    else
      var v: int := if neg then -(r.value as int) else r.value;
      if -0x8000_0000_0000_0000 <= v < 0x8000_0000_0000_0000 then Some(v) else None
  }

  lemma {:induction false} ParseOfDigits(n: nat)
    ensures ParseDigits(Digits(n)) == Some(n)
    ensures forall i :: 0 <= i < |Digits(n)| ==> '0' <= Digits(n)[i] <= '9'
  {
    if n >= 10 {
      ParseOfDigits(n / 10);
      assert Digits(n)[..|Digits(n)| - 1] == Digits(n / 10);
    }
  }

  /** Exactly the non-empty strings of digits parse. */
  lemma {:induction false} ParsesIffDigits(s: string)
    ensures ParseDigits(s).Some? <==> s != "" && forall i :: 0 <= i < |s| ==> '0' <= s[i] <= '9'
  {
    if |s| > 1 {
      ParsesIffDigits(s[..|s| - 1]);
      assert s == s[..|s| - 1] + [s[|s| - 1]];
    }
  }

  lemma DigitsGrow(r: nat, d: nat)
    requires d < 10
    ensures Digits(10 * r + d) == if r > 0 then Digits(r) + [Digit(d)] else [Digit(d)]
  {
    assert (10 * r + d) / 10 == r && (10 * r + d) % 10 == d;
  }

  function Zeros(k: nat): string {
    if k == 0 then "" else Zeros(k - 1) + "0"
  }

  lemma DigitOf(c: char)
    requires '0' <= c <= '9'
    ensures (c - '0') as nat < 10 && Digit((c - '0') as nat) == c
  {
  }

  /** The last character is the last digit, the others give the rest of the value. */
  lemma ParsesLast(s: string) returns (d: nat)
    requires ParseDigits(s).Some?
    ensures s != "" && d < 10 && s == s[..|s| - 1] + [Digit(d)]
    ensures |s| == 1 ==> ParseDigits(s).value == d
    ensures |s| > 1 ==>
              ParseDigits(s[..|s| - 1]).Some? && ParseDigits(s).value == 10 * ParseDigits(s[..|s| - 1]).value + d
  {
    var c := s[|s| - 1];
    DigitOf(c);
    d := (c - '0') as nat;
  }

  lemma DigitAfter(k: nat, r: nat, d: nat) returns (m: nat)
    requires d < 10
    ensures (Zeros(k) + Digits(r)) + [Digit(d)] == Zeros(m) + Digits(10 * r + d)
  {
    DigitsGrow(r, d);
    if r > 0 {
      m := k;
      assert (Zeros(k) + Digits(r)) + [Digit(d)] == Zeros(k) + (Digits(r) + [Digit(d)]);
    } else {
      m := k + 1;
      DigitsGrow(0, 0);
    }
  }

  /** What parses is the digits of its value after some number of zeros. */
  lemma {:induction false} ParsesDigits(s: string, v: nat) returns (zeros: nat)
    requires ParseDigits(s) == Some(v)
    ensures s == Zeros(zeros) + Digits(v)
  {
    var d := ParsesLast(s);
    if |s| == 1 {
      zeros := 0;
      DigitsGrow(0, d);
    } else {
      var r := ParseDigits(s[..|s| - 1]).value;
      var k := ParsesDigits(s[..|s| - 1], r);
      zeros := DigitAfter(k, r, d);
    }
  }

  /** A sign, then digits, within the range of 64 bits. */
  lemma ParsesInt(s: string)
    ensures ParseInt(s).Some? <==>
              && (ParseDigits(s).Some? || (s != "" && (s[0] == '-' || s[0] == '+') && ParseDigits(s[1..]).Some?))
              && (ParseDigits(s).Some? ==> ParseDigits(s).value < 0x8000_0000_0000_0000)
              && (ParseDigits(s).None? && s[0] == '+' ==> ParseDigits(s[1..]).value < 0x8000_0000_0000_0000)
              && (ParseDigits(s).None? && s[0] == '-' ==> ParseDigits(s[1..]).value <= 0x8000_0000_0000_0000)
    ensures ParseInt(s).Some? ==>
              ParseInt(s).value == if ParseDigits(s).Some? then ParseDigits(s).value as int
                                   else if s[0] == '-' then -(ParseDigits(s[1..]).value as int)
                                   else ParseDigits(s[1..]).value
  {
    ParsesIffDigits(s);
  }

  ghost function Encoded(p: Prf, b64: Base64, pw: string, salt: Bytes): string
    requires IsPrf(p)
  {
    Join([ALGORITHM, Digits(ITERATIONS), b64.encode(salt),
          b64.encode(DerivedKey(p, pw, salt, ITERATIONS, KEY_LENGTH))], '$')
  }

  lemma IterationDigits()
    ensures Digits(ITERATIONS) == "210000"
  {
    assert Digits(21) == "21";
    assert Digits(2100) == "2100";
  }

  lemma JoinedFour(a: string, b: string, c: string, d: string)
    ensures Join([a, b, c, d], '$') == a + "$" + b + "$" + c + "$" + d
  {
    assert [a, b, c, d][1..] == [b, c, d] && [b, c, d][1..] == [c, d] && [c, d][1..] == [d];
    assert Join([c, d], '$') == c + "$" + d;
    assert Join([b, c, d], '$') == b + "$" + (c + "$" + d);
  }

  /** The salt is the random one drawn for the call. */
  method Hash(p: Prf, b64: Base64, pw: string, salt: Bytes) returns (s: string)
    requires IsPrf(p)
    ensures s == Encoded(p, b64, pw, salt)
    ensures s == "pbkdf2_sha256$210000$" + b64.encode(salt) + "$"
                 + b64.encode(DerivedKey(p, pw, salt, 210000, 32))
  {
    var dk := Derive(p, pw, salt, ITERATIONS, KEY_LENGTH);
    s := Join([ALGORITHM, Digits(ITERATIONS), b64.encode(salt), b64.encode(dk)], '$');
    IterationDigits();
    JoinedFour(ALGORITHM, Digits(ITERATIONS), b64.encode(salt), b64.encode(dk));
  }

  /** The encoded form names an iteration count, a salt and a key. */
  datatype Stored = Stored(iter: nat, salt: Bytes, key: Bytes)

  function Parsed(b64: Base64, encoded: string): (r: Option<Stored>)
    ensures r.Some? ==> r.value.iter > 0
  {
    var parts := Split(encoded, '$');
    if |parts| != 4 || parts[0] != ALGORITHM then None
    else
      var iter := ParseInt(parts[1]);
      var salt := b64.decode(parts[2]);
      var want := b64.decode(parts[3]);
      if iter.None? || iter.value <= 0 || salt.None? || want.None? then None
      else Some(Stored(iter.value, salt.value, want.value))
  }

  method Verify(p: Prf, b64: Base64, pw: string, encoded: string) returns (ok: bool)
    requires IsPrf(p)
    ensures ok <==> Accepts(p, b64, pw, encoded)
  {
    var parts := Split(encoded, '$');
    if |parts| != 4 || parts[0] != ALGORITHM {
      return false;
    }
    var iter := ParseInt(parts[1]);
    if iter.None? || iter.value <= 0 {
      return false;
    }
    var salt := b64.decode(parts[2]);
    if salt.None? {
      return false;
    }
    var want := b64.decode(parts[3]);
    if want.None? {
      return false;
    }
    var got := Derive(p, pw, salt.value, iter.value, |want.value|);
    return got == want.value;
  }

  ghost predicate Accepts(p: Prf, b64: Base64, pw: string, encoded: string)
    requires IsPrf(p)
  {
    var r := Parsed(b64, encoded);
    r.Some? && DerivedKey(p, pw, r.value.salt, r.value.iter, |r.value.key|) == r.value.key
  }

  /** Parsing undoes printing, for every iteration count that fits, every salt and every key. */
  lemma ParsedPrinted(b64: Base64, n: nat, salt: Bytes, key: Bytes)
    requires IsBase64(b64) && 0 < n < 0x8000_0000_0000_0000
    ensures Parsed(b64, Join(["pbkdf2_sha256", Digits(n), b64.encode(salt), b64.encode(key)], '$'))
            == Some(Stored(n, salt, key))
  {
    ParseOfDigits(n);
    SplitJoin(["pbkdf2_sha256", Digits(n), b64.encode(salt), b64.encode(key)], '$');
  }

  /** A printed count, salt and key are accepted for the passwords that derive that key, whatever its length. */
  lemma AcceptsIff(p: Prf, b64: Base64, pw: string, n: nat, salt: Bytes, key: Bytes)
    requires IsPrf(p) && IsBase64(b64) && 0 < n < 0x8000_0000_0000_0000
    ensures Accepts(p, b64, pw, Join(["pbkdf2_sha256", Digits(n), b64.encode(salt), b64.encode(key)], '$'))
            <==> DerivedKey(p, pw, salt, n, |key|) == key
  {
    ParsedPrinted(b64, n, salt, key);
  }

  /** A string printed for one password is accepted for another exactly when the two derive the same key. */
  lemma AcceptsIffSameKey(p: Prf, b64: Base64, pw: string, salt: Bytes, other: string)
    requires IsPrf(p) && IsBase64(b64)
    ensures Accepts(p, b64, other, Encoded(p, b64, pw, salt))
            <==> DerivedKey(p, other, salt, ITERATIONS, KEY_LENGTH) == DerivedKey(p, pw, salt, ITERATIONS, KEY_LENGTH)
    ensures Accepts(p, b64, pw, Encoded(p, b64, pw, salt))
  {
    AcceptsIff(p, b64, pw, ITERATIONS, salt, DerivedKey(p, pw, salt, ITERATIONS, KEY_LENGTH));
    AcceptsIff(p, b64, other, ITERATIONS, salt, DerivedKey(p, pw, salt, ITERATIONS, KEY_LENGTH));
  }
}
