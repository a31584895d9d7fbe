/**
 Password preparation for bcrypt: a password is cut, one character at a
 time from the end, until its UTF-8 encoding fits bcrypt's 72-byte limit,
 and both hashing and verification go through the same cut. UTF-8 is the
 encoding of RFC 3629; bcrypt itself is a parameter.
 */
module Security {
  import opened Runtime

  /** A Python `str` element: any code point, lone surrogates included. */
  type CodePoint = c: int | 0 <= c < 0x11_0000

  newtype byte = b: int | 0 <= b < 256

  /** bcrypt reads at most this many bytes of a password. */
  const MaxPasswordBytes := 72

  /** Surrogates cannot be encoded: `str.encode('utf-8')` raises on them. */
  predicate IsSurrogate(c: CodePoint) {
    0xD800 <= c <= 0xDFFF
  }

  predicate Encodable(s: seq<CodePoint>) {
    forall i :: 0 <= i < |s| ==> !IsSurrogate(s[i])
  }

  // ---------------------------------------------------------------------
  // UTF-8
  // ---------------------------------------------------------------------

  /** Bytes UTF-8 spends on one code point (section 3 of RFC 3629). */
  function Utf8Width(c: CodePoint): (n: nat)
    ensures 1 <= n <= 4
    ensures n == 1 <==> c < 0x80
  {
    if c < 0x80 then 1
    else if c < 0x800 then 2
    else if c < 0x1_0000 then 3
    else 4
  }

  /** One code point in UTF-8: a lead byte announcing the width, then
      continuation bytes of six payload bits each. */
  function EncodeChar(c: CodePoint): (bs: seq<byte>)
    requires !IsSurrogate(c)
    ensures |bs| == Utf8Width(c)
    ensures |bs| == 1 <==> bs[0] < 0x80
    ensures |bs| == 2 <==> 0xC0 <= bs[0] < 0xE0
    ensures |bs| == 3 <==> 0xE0 <= bs[0] < 0xF0
    ensures |bs| == 4 <==> 0xF0 <= bs[0] < 0xF8
    ensures forall i :: 1 <= i < |bs| ==> 0x80 <= bs[i] < 0xC0
  {
    if c < 0x80 then [c as byte]
    else if c < 0x800 then [(0xC0 + c / 64) as byte, (0x80 + c % 64) as byte]
    else if c < 0x1_0000 then
      [(0xE0 + c / 4096) as byte, (0x80 + (c / 64) % 64) as byte, (0x80 + c % 64) as byte]
    else
      [(0xF0 + c / 262144) as byte, (0x80 + (c / 4096) % 64) as byte,
       (0x80 + (c / 64) % 64) as byte, (0x80 + c % 64) as byte]
  }

  /** Reads back the code point of one well-formed UTF-8 sequence. */
  function DecodeChar(bs: seq<byte>): (c: int)
    requires 1 <= |bs| <= 4
  {
    var b := seq(|bs|, i requires 0 <= i < |bs| => bs[i] as int);
    if |bs| == 1 then b[0]
    else if |bs| == 2 then (b[0] - 0xC0) * 64 + (b[1] - 0x80)
    else if |bs| == 3 then (b[0] - 0xE0) * 4096 + (b[1] - 0x80) * 64 + (b[2] - 0x80)
    else (b[0] - 0xF0) * 262144 + (b[1] - 0x80) * 4096 + (b[2] - 0x80) * 64 + (b[3] - 0x80)
  }

  /** Decoding undoes encoding, so no two code points share an encoding. */
  lemma EncodeCharRoundTrip(c: CodePoint)
    requires !IsSurrogate(c)
    ensures DecodeChar(EncodeChar(c)) == c
  {
    var q1, r1 := c / 64, c % 64;
    var q2, r2 := q1 / 64, q1 % 64;
    var q3, r3 := q2 / 64, q2 % 64;
    assert c == q1 * 64 + r1 && q1 == q2 * 64 + r2 && q2 == q3 * 64 + r3;
    assert c / 4096 == q2 && c / 262144 == q3;
  }

  /** Length of the UTF-8 encoding of a whole string. */
  function EncodedLength(s: seq<CodePoint>): (n: nat)
    ensures n >= |s|
    ensures n <= 4 * |s|
  {
    if |s| == 0 then 0 else Utf8Width(s[0]) + EncodedLength(s[1..])
  }

  /** `s.encode('utf-8')` for a string without surrogates. */
  function Encode(s: seq<CodePoint>): (bs: seq<byte>)
    requires Encodable(s)
    ensures |bs| == EncodedLength(s)
  {
    if |s| == 0 then []
    else
      assert forall i :: 1 <= i < |s| ==> s[i] == s[1..][i - 1];
      EncodeChar(s[0]) + Encode(s[1..])
  }

  lemma {:induction false} EncodedLengthAppend(a: seq<CodePoint>, b: seq<CodePoint>)
    ensures EncodedLength(a + b) == EncodedLength(a) + EncodedLength(b)
  {
    if |a| == 0 {
      assert a + b == b;
    } else {
      assert (a + b)[0] == a[0];
      assert (a + b)[1..] == a[1..] + b;
      EncodedLengthAppend(a[1..], b);
    }
  }

  /** Joining two encodable strings gives an encodable string. */
  lemma EncodableAppend(a: seq<CodePoint>, b: seq<CodePoint>)
    requires Encodable(a) && Encodable(b)
    ensures Encodable(a + b)
  {
    forall i | 0 <= i < |a + b|
      ensures !IsSurrogate((a + b)[i])
    {
      if i < |a| {
        assert (a + b)[i] == a[i];
      } else {
        assert (a + b)[i] == b[i - |a|];
      }
    }
  }

  /** Encoding is a homomorphism: a string's encoding is its pieces' encodings joined. */
  lemma {:induction false} EncodeAppend(a: seq<CodePoint>, b: seq<CodePoint>)
    requires Encodable(a) && Encodable(b)
    ensures Encodable(a + b)
    ensures Encode(a + b) == Encode(a) + Encode(b)
  {
    EncodableAppend(a, b);
    if |a| == 0 {
      assert a + b == b;
    } else {
      assert (a + b)[0] == a[0];
      assert (a + b)[1..] == a[1..] + b;
      assert Encodable(a[1..]) by {
        assert forall i :: 0 <= i < |a[1..]| ==> a[1..][i] == a[i + 1];
      }
      EncodeAppend(a[1..], b);
      SeqAssociative(EncodeChar(a[0]), Encode(a[1..]), Encode(b));
    }
  }

  /** A longer prefix never encodes shorter. */
  lemma PrefixLengthMonotone(s: seq<CodePoint>, j: nat, k: nat)
    requires j <= k <= |s|
    ensures EncodedLength(s[..j]) <= EncodedLength(s[..k])
  {
    assert s[..k] == s[..j] + s[j..k];
    EncodedLengthAppend(s[..j], s[j..k]);
  }

  // ---------------------------------------------------------------------
  // The 72-byte cut
  // ---------------------------------------------------------------------

  /** The loop `while len(t.encode('utf-8')) > 72: t = t[:-1]`, on a string
      that encodes. */
  function Shorten(s: seq<CodePoint>): (t: seq<CodePoint>)
    ensures t <= s
    ensures EncodedLength(t) <= MaxPasswordBytes
    ensures EncodedLength(s) <= MaxPasswordBytes ==> t == s
    ensures |t| < |s| ==> EncodedLength(s[..|t| + 1]) > MaxPasswordBytes
    decreases |s|
  {
    if EncodedLength(s) > MaxPasswordBytes then
      var shorter := s[..|s| - 1];
      var t := Shorten(shorter);
      assert |t| < |shorter| ==> shorter[..|t| + 1] == s[..|t| + 1];
      assert |t| == |shorter| ==> s[..|t| + 1] == s;
      t
    else s
  }

  /** The cut keeps the longest prefix that fits: every longer prefix is
      over the limit. */
  lemma ShortenIsLongest(s: seq<CodePoint>, k: nat)
    requires |Shorten(s)| < k <= |s|
    ensures EncodedLength(s[..k]) > MaxPasswordBytes
  {
    PrefixLengthMonotone(s, |Shorten(s)| + 1, k);
  }

  /** Once a prefix is over the limit, the rest of the string is irrelevant:
      cutting the whole string and cutting that prefix agree. */
  lemma {:induction false} ShortenThroughPrefix(s: seq<CodePoint>, n: nat)
    requires n <= |s| && EncodedLength(s[..n]) > MaxPasswordBytes
    ensures Shorten(s) == Shorten(s[..n])
    decreases |s| - n
  {
    if n < |s| {
      PrefixLengthMonotone(s, n, |s|);
      assert s[..|s|] == s;
      var shorter := s[..|s| - 1];
      assert shorter[..n] == s[..n];
      ShortenThroughPrefix(shorter, n);
    } else {
      assert s[..n] == s;
    }
  }

  /** Two passwords sharing a prefix that is already over 72 bytes are cut
      to the same text. */
  lemma SharedPrefixSameCut(s1: seq<CodePoint>, s2: seq<CodePoint>, n: nat)
    requires n <= |s1| && n <= |s2| && s1[..n] == s2[..n]
    requires EncodedLength(s1[..n]) > MaxPasswordBytes
    ensures Shorten(s1) == Shorten(s2)
  {
    ShortenThroughPrefix(s1, n);
    ShortenThroughPrefix(s2, n);
  }

  /** The bytes bcrypt is given are the first bytes of the full encoding:
      the cut never splits a character. */
  lemma CutEncodingIsPrefix(s: seq<CodePoint>)
    requires Encodable(s)
    ensures Encode(Shorten(s)) <= Encode(s)
  {
    var t := Shorten(s);
    assert s == t + s[|t|..];
    EncodeAppend(t, s[|t|..]);
  }

  /** The loop itself, one character per step, computes the same cut. */
  method CutLoop(password: seq<CodePoint>) returns (t: seq<CodePoint>)
    ensures t == Shorten(password)
    ensures t <= password && EncodedLength(t) <= MaxPasswordBytes
  {
    t := password;
    while EncodedLength(t) > MaxPasswordBytes
      invariant t <= password
      invariant Shorten(t) == Shorten(password)
      decreases |t|
    {
      t := t[..|t| - 1];
    }
  }

  /** The cut of a password, raising `UnicodeEncodeError` when the password
      holds a surrogate: the first test of the loop already encodes it. */
  function TruncatePassword(password: seq<CodePoint>): (r: Result<seq<CodePoint>>)
    ensures r.Raised? <==> !Encodable(password)
    ensures r.Ok? ==> r.value == Shorten(password) && Encodable(r.value)
  {
    if Encodable(password) then
      var t := Shorten(password);
      assert forall i :: 0 <= i < |t| ==> t[i] == password[i];
      Ok(t)
    else Raised("UnicodeEncodeError")
  }

  // ---------------------------------------------------------------------
  // Hashing and verification
  // ---------------------------------------------------------------------

  /** bcrypt's `hashpw` with a fresh salt, decoded to text. */
  type HashFunction = seq<byte> -> Result<seq<CodePoint>>

  /** bcrypt's `checkpw` on the password bytes and the stored hash bytes. */
  type CheckFunction = (seq<byte>, seq<byte>) -> Result<bool>

  /** The stored hash of a password: any error is logged and re-raised. */
  function HashPassword(password: seq<CodePoint>, hashpw: HashFunction): (r: Result<seq<CodePoint>>)
    ensures r.Raised? <==> !Encodable(password) || hashpw(Encode(Shorten(password))).Raised?
    ensures r.Ok? ==> r == hashpw(Encode(Shorten(password)))
  {
    var t :- TruncatePassword(password);
    hashpw(Encode(t))
  }

  /** Whether a password matches a stored hash; every error, from encoding
      or from bcrypt, answers `false`. */
  function VerifyPassword(plain: seq<CodePoint>, hashed: seq<CodePoint>, checkpw: CheckFunction): (r: bool)
    ensures r <==>
      && Encodable(plain) && Encodable(hashed)
      && checkpw(Encode(Shorten(plain)), Encode(hashed)) == Ok(true)
  {
    match TruncatePassword(plain)
    case Raised(_) => false
    case Ok(t) =>
      if !Encodable(hashed) then false
      else checkpw(Encode(t), Encode(hashed)) == Ok(true)
  }

  /** bcrypt's promise: a hash it made checks against the same bytes. */
  ghost predicate Consistent(hashpw: HashFunction, checkpw: CheckFunction) {
    forall b :: hashpw(b).Ok? ==> Encodable(hashpw(b).value) && checkpw(b, Encode(hashpw(b).value)) == Ok(true)
  }

  /** A password verifies against its own stored hash. */
  lemma HashThenVerify(password: seq<CodePoint>, hashpw: HashFunction, checkpw: CheckFunction)
    requires Consistent(hashpw, checkpw)
    requires HashPassword(password, hashpw).Ok?
    ensures VerifyPassword(password, HashPassword(password, hashpw).value, checkpw)
  {
    var b := Encode(Shorten(password));
    assert hashpw(b).Ok?;
  }

  /** Only the first 72 bytes count: two passwords agreeing on a prefix
      that is already over the limit verify alike against any hash. */
  lemma SharedPrefixVerifiesAlike(s1: seq<CodePoint>, s2: seq<CodePoint>, n: nat,
                                  hashed: seq<CodePoint>, checkpw: CheckFunction)
    requires Encodable(s1) && Encodable(s2)
    requires n <= |s1| && n <= |s2| && s1[..n] == s2[..n]
    requires EncodedLength(s1[..n]) > MaxPasswordBytes
    ensures VerifyPassword(s1, hashed, checkpw) == VerifyPassword(s2, hashed, checkpw)
  {
    SharedPrefixSameCut(s1, s2, n);
  }
}
