/** Base64url without padding (section 5 of RFC 4648), as Go's `base64.RawURLEncoding` reads and writes it. */
module Base64 {
  import opened Common

  type byte = x: int | 0 <= x < 256
  type digit = x: int | 0 <= x < 64

  function Symbol(d: digit): char {
    if d < 26 then 'A' + d as char
    else if d < 52 then 'a' + (d - 26) as char
    else if d < 62 then '0' + (d - 52) as char
    else if d == 62 then '-'
    else '_'
  }

  function Value(c: char): Option<digit> {
    if 'A' <= c <= 'Z' then Some((c - 'A') as int)
    else if 'a' <= c <= 'z' then Some((c - 'a') as int + 26)
    else if '0' <= c <= '9' then Some((c - '0') as int + 52)
    else if c == '-' then Some(62)
    else if c == '_' then Some(63)
    else None
  }

  /** Six-bit digits of a byte string; a final group of one or two bytes gives two or three. */
  function Digits(b: seq<byte>): seq<digit>
    decreases |b|
  {
    if b == [] then []
    else if |b| == 1 then [b[0] / 4, b[0] % 4 * 16]
    else if |b| == 2 then [b[0] / 4, b[0] % 4 * 16 + b[1] / 16, b[1] % 16 * 4]
    else [b[0] / 4, b[0] % 4 * 16 + b[1] / 16, b[1] % 16 * 4 + b[2] / 64, b[2] % 64] + Digits(b[3..])
  }

  // The three bytes that four digits share.
  function First(d0: int, d1: int): byte requires 0 <= d0 < 64 && 0 <= d1 < 64 { d0 * 4 + d1 / 16 }
  function Second(d1: int, d2: int): byte requires 0 <= d1 < 64 && 0 <= d2 < 64 { d1 % 16 * 16 + d2 / 4 }
  function Third(d2: int, d3: int): byte requires 0 <= d2 < 64 && 0 <= d3 < 64 { d2 % 4 * 64 + d3 }

  /** The bytes of a digit string; bits left over at the end are ignored, one digit alone is an error. */
  function Octets(d: seq<digit>): Option<seq<byte>>
    decreases |d|
  {
    if d == [] then Some([])
    else if |d| == 1 then None
    else if |d| == 2 then Some([First(d[0], d[1])])
    else if |d| == 3 then Some([First(d[0], d[1]), Second(d[1], d[2])])
    else
      var rest := Octets(d[4..]);
      if rest.None? then None
      else Some([First(d[0], d[1]), Second(d[1], d[2]), Third(d[2], d[3])] + rest.value)
  }

  function Encode(b: seq<byte>): string {
    var d := Digits(b);
    seq(|d|, i requires 0 <= i < |d| => Symbol(d[i]))
  }

  /** The digits of an encoded string; line breaks are skipped, any other foreign character is an error. */
  function Parse(s: string): Option<seq<digit>>
    decreases |s|
  {
    if s == "" then Some([])
    else if s[0] == '\n' || s[0] == '\r' then Parse(s[1..])
    else
      var v, rest := Value(s[0]), Parse(s[1..]);
      if v.Some? && rest.Some? then Some([v.value] + rest.value) else None
  }

  function Decode(s: string): Option<seq<byte>> {
    var d := Parse(s);
    if d.None? then None else Octets(d.value)
  }

  predicate InAlphabet(c: char) { Value(c).Some? }

  lemma SymbolValue(d: digit)
    ensures Value(Symbol(d)) == Some(d)
  {
  }

  lemma {:induction false} OctetsOfDigits(b: seq<byte>)
    ensures Octets(Digits(b)) == Some(b)
    decreases |b|
  {
    var d := Digits(b);
    if |b| == 1 {
      assert First(d[0], d[1]) == b[0];
      assert b == [b[0]];
    } else if |b| == 2 {
      assert First(d[0], d[1]) == b[0] && Second(d[1], d[2]) == b[1];
      assert b == [b[0], b[1]];
    } else if |b| >= 3 {
      OctetsOfDigits(b[3..]);
      assert d[4..] == Digits(b[3..]);
      assert First(d[0], d[1]) == b[0] && Second(d[1], d[2]) == b[1] && Third(d[2], d[3]) == b[2];
      assert b == [b[0], b[1], b[2]] + b[3..];
    }
  }

  lemma {:induction false} ParseSymbols(s: string, d: seq<digit>)
    requires |s| == |d| && forall i :: 0 <= i < |d| ==> s[i] == Symbol(d[i])
    ensures Parse(s) == Some(d)
    decreases |s|
  {
    if s != "" {
      SymbolValue(d[0]);
      ParseSymbols(s[1..], d[1..]);
      assert d == [d[0]] + d[1..];
    }
  }

  /** Decoding undoes encoding. */
  lemma DecodeEncode(b: seq<byte>)
    ensures Decode(Encode(b)) == Some(b)
  {
    ParseSymbols(Encode(b), Digits(b));
    OctetsOfDigits(b);
  }

  /** The encoding is one-to-one and stays inside its 64 symbols. */
  lemma EncodeIsInjective(a: seq<byte>, b: seq<byte>)
    requires Encode(a) == Encode(b)
    ensures a == b
  {
    DecodeEncode(a);
    DecodeEncode(b);
  }

  lemma EncodeAlphabet(b: seq<byte>)
    ensures forall i :: 0 <= i < |Encode(b)| ==> InAlphabet(Encode(b)[i])
  {
    var d := Digits(b);
    forall i | 0 <= i < |d| ensures InAlphabet(Encode(b)[i]) {
      SymbolValue(d[i]);
    }
  }
}

/** Proof Key for Code Exchange with method S256 (section 4.6 of RFC 7636). SHA-256 is a parameter. */
module Pkce {
  import opened Base64

  function CodeChallenge(sha: string -> seq<byte>, verifier: string): string {
    Encode(sha(verifier))
  }

  predicate VerifyPkce(sha: string -> seq<byte>, verifier: string, challenge: string) {
    Encode(sha(verifier)) == challenge
  }

  /** A verifier answers another verifier's challenge exactly when their hashes collide. */
  lemma OnlyCollidingVerifiersPass(sha: string -> seq<byte>, verifier: string, original: string)
    ensures VerifyPkce(sha, verifier, CodeChallenge(sha, original)) <==> sha(verifier) == sha(original)
  {
    if VerifyPkce(sha, verifier, CodeChallenge(sha, original)) {
      EncodeIsInjective(sha(verifier), sha(original));
    }
  }
}
