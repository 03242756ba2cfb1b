/** base64.URLEncoding: section 5 of RFC 4648, with padding. */
module Base64 {
  import opened Prelude

  /** A byte string, one character a byte. */
  predicate IsBytes(data: string) { forall i :: 0 <= i < |data| ==> data[i] as int < 256 }

  function Digit(n: nat): char
    requires n < 64
  {
    if n < 26 then 'A' + n as char
    else if n < 52 then 'a' + (n - 26) as char
    else if n < 62 then '0' + (n - 52) as char
    else if n == 62 then '-'
    else '_'
  }

  function Value(c: char): (n: Option<nat>)
    ensures n.Some? ==> n.value < 64 && Digit(n.value) == c
    ensures n.None? ==> forall d: nat | d < 64 :: Digit(d) != c
  {
    if 'A' <= c <= 'Z' then Some(c as int - 'A' as int)
    else if 'a' <= c <= 'z' then Some(c as int - 'a' as int + 26)
    else if '0' <= c <= '9' then Some(c as int - '0' as int + 52)
    else if c == '-' then Some(62)
    else if c == '_' then Some(63)
    else None
  }

  lemma ValueOfDigit(n: nat)
    requires n < 64
    ensures Value(Digit(n)) == Some(n) && Digit(n) !in "=\r\n"
  {
  }

  /** The four characters of three bytes. */
  function Quad(x: char, y: char, z: char): (s: string)
    requires x as int < 256 && y as int < 256 && z as int < 256
    ensures |s| == 4
  {
    var a, b, c := x as int, y as int, z as int;
    [Digit(a / 4), Digit(a % 4 * 16 + b / 16), Digit(b % 16 * 4 + c / 64), Digit(c % 64)]
  }

  /** EncodeToString. */
  function Encode(data: string): string
    requires IsBytes(data)
  {
    if data == "" then ""
    else
      var a := data[0] as int;
      if |data| == 1 then [Digit(a / 4), Digit(a % 4 * 16), '=', '=']
      else
        var b := data[1] as int;
        if |data| == 2 then [Digit(a / 4), Digit(a % 4 * 16 + b / 16), Digit(b % 16 * 4), '=']
        else
          Quad(data[0], data[1], data[2]) + Encode(data[3..])
  }

  function DropNewlines(token: string): string {
    if token == "" then ""
    else (if token[0] in "\r\n" then "" else [token[0]]) + DropNewlines(token[1..])
  }

  /** The bytes of whole groups of four, only the last of which may be padded. The
      unused bits of a padded group are not looked at. */
  function Groups(s: string): (data: Option<string>)
    ensures data.Some? ==> IsBytes(data.value)
  {
    if s == "" then Some("")
    else if |s| < 4 || Value(s[0]).None? || Value(s[1]).None? then None
    else
      var a := Value(s[0]).value;
      var b := Value(s[1]).value;
      var first := (a * 4 + b / 16) as char;
      if s[2..] == "==" then Some([first])
      else if Value(s[2]).None? then None
      else
        var c := Value(s[2]).value;
        var second := (b % 16 * 16 + c / 4) as char;
        if s[3..] == "=" then Some([first, second])
        else if Value(s[3]).None? then None
        else
          var third := (c % 4 * 64 + Value(s[3]).value) as char;
          var rest := Groups(s[4..]);
          if rest.None? then None else Some([first, second, third] + rest.value)
  }

  /** DecodeString. */
  function Decode(token: string): Option<string> { Groups(DropNewlines(token)) }

  lemma OneByte(a: nat)
    requires a < 256
    ensures a / 4 < 64 && a % 4 * 16 < 64 && a / 4 * 4 + (a % 4 * 16) / 16 == a
  {
  }

  lemma TwoBytes(a: nat, b: nat)
    requires a < 256 && b < 256
    ensures a % 4 * 16 + b / 16 < 64
    ensures a / 4 * 4 + (a % 4 * 16 + b / 16) / 16 == a
    ensures (a % 4 * 16 + b / 16) % 16 * 16 + (b % 16 * 4) / 4 == b
  {
  }

  lemma ThreeBytes(b: nat, c: nat, high: nat)
    requires b < 256 && c < 256 && high < 4
    ensures b % 16 * 4 + c / 64 < 64
    ensures (high * 16 + b / 16) % 16 * 16 + (b % 16 * 4 + c / 64) / 4 == b
    ensures (b % 16 * 4 + c / 64) % 4 * 64 + c % 64 == c
  {
  }

  lemma {:induction false} NoNewlines(data: string)
    requires IsBytes(data)
    ensures forall c :: c in Encode(data) ==> c !in "\r\n"
  {
    if |data| > 2 { NoNewlines(data[3..]); }
  }

  lemma {:induction false} NothingDropped(token: string)
    requires forall c :: c in token ==> c !in "\r\n"
    ensures DropNewlines(token) == token
  {
    if token != "" { NothingDropped(token[1..]); }
  }

  lemma ShortGroups(a: nat, b: nat)
    requires a < 256 && b < 256
    ensures a / 4 < 64 && a % 4 * 16 < 64 && a % 4 * 16 + b / 16 < 64 && b % 16 * 4 < 64
    ensures Groups([Digit(a / 4), Digit(a % 4 * 16), '=', '=']) == Some([a as char])
    ensures Groups([Digit(a / 4), Digit(a % 4 * 16 + b / 16), Digit(b % 16 * 4), '=']) == Some([a as char, b as char])
  {
    OneByte(a);
    TwoBytes(a, b);
    ValueOfDigit(a / 4);
    ValueOfDigit(a % 4 * 16);
    ValueOfDigit(a % 4 * 16 + b / 16);
    ValueOfDigit(b % 16 * 4);
    assert [Digit(a / 4), Digit(a % 4 * 16), '=', '='][2..] == "==";
    assert [Digit(a / 4), Digit(a % 4 * 16 + b / 16), Digit(b % 16 * 4), '='][3..] == "=";
  }

  lemma FullGroup(p: nat, q: nat, r: nat, t: nat, rest: string)
    requires p < 64 && q < 64 && r < 64 && t < 64 && Groups(rest).Some?
    ensures Groups([Digit(p), Digit(q), Digit(r), Digit(t)] + rest)
         == Some([(p * 4 + q / 16) as char, (q % 16 * 16 + r / 4) as char, (r % 4 * 64 + t) as char] + Groups(rest).value)
  {
    var s := [Digit(p), Digit(q), Digit(r), Digit(t)] + rest;
    ValueOfDigit(p);
    ValueOfDigit(q);
    ValueOfDigit(r);
    ValueOfDigit(t);
    assert s[2..][0] == s[2] && s[3..][0] == s[3] && s[4..] == rest;
  }

  lemma Sextets(a: nat, b: nat, c: nat) returns (p: nat, q: nat, r: nat, t: nat)
    requires a < 256 && b < 256 && c < 256
    ensures p < 64 && q < 64 && r < 64 && t < 64
    ensures p == a / 4 && q == a % 4 * 16 + b / 16 && r == b % 16 * 4 + c / 64 && t == c % 64
    ensures p * 4 + q / 16 == a && q % 16 * 16 + r / 4 == b && r % 4 * 64 + t == c
  {
    TwoBytes(a, b);
    ThreeBytes(b, c, a % 4);
    p, q, r, t := a / 4, a % 4 * 16 + b / 16, b % 16 * 4 + c / 64, c % 64;
  }

  lemma QuadGroup(x: char, y: char, z: char, rest: string)
    requires x as int < 256 && y as int < 256 && z as int < 256 && Groups(rest).Some?
    ensures Groups(Quad(x, y, z) + rest) == Some([x, y, z] + Groups(rest).value)
  {
    var p, q, r, t := Sextets(x as int, y as int, z as int);
    FullGroup(p, q, r, t, rest);
  }

  lemma LongGroups(data: string, encoded: string)
    requires IsBytes(data) && |data| > 2 && Groups(Encode(data[3..])) == Some(data[3..])
    requires encoded == Quad(data[0], data[1], data[2]) + Encode(data[3..])
    ensures Groups(encoded) == Some(data)
  {
    QuadGroup(data[0], data[1], data[2], Encode(data[3..]));
    assert data == [data[0], data[1], data[2]] + data[3..];
  }

  lemma {:induction false} GroupsOfEncode(data: string)
    requires IsBytes(data)
    ensures Groups(Encode(data)) == Some(data)
  {
    if |data| > 2 {
      GroupsOfEncode(data[3..]);
      LongGroups(data, Encode(data));
    } else if data != "" {
      ShortGroups(data[0] as int, data[|data| - 1] as int);
      assert data == if |data| == 1 then [data[0]] else [data[0], data[1]];
    }
  }

  /** Decoding an encoded byte string gives the bytes back, also when line breaks
      were put into the token on the way. */
  lemma DecodeEncode(data: string, token: string)
    requires IsBytes(data) && DropNewlines(token) == Encode(data)
    ensures Decode(token) == Some(data)
  {
    GroupsOfEncode(data);
  }

  // ---------------------------------------------------------------------
  // The encoding of RFC 4648, spelled out

  /** Table 2 of RFC 4648, by the ASCII codes of A, a, 0, minus and underscore. */
  lemma DigitIs(n: nat)
    requires n < 64
    ensures Digit(n) as int ==
      if n < 26 then 65 + n else if n < 52 then 97 + (n - 26) else if n < 62 then 48 + (n - 52)
      else if n == 62 then 45 else 95
  {
  }

  /** Three bytes and their four characters are the same number, in base 256 and in
      base 64. */
  lemma SameNumber(a: nat, b: nat, c: nat) returns (p: nat, q: nat, r: nat, t: nat)
    requires a < 256 && b < 256 && c < 256
    ensures p < 64 && q < 64 && r < 64 && t < 64
    ensures Quad(a as char, b as char, c as char) == [Digit(p), Digit(q), Digit(r), Digit(t)]
    ensures ((p * 64 + q) * 64 + r) * 64 + t == (a * 256 + b) * 256 + c
  {
    p, q, r, t := Sextets(a, b, c);
    Regroup(p, q / 16, q % 16, r / 4, r % 4, t);
  }

  lemma Regroup(p: nat, q: nat, q': nat, r: nat, r': nat, t: nat)
    ensures ((p * 64 + (q * 16 + q')) * 64 + (r * 4 + r')) * 64 + t
         == ((p * 4 + q) * 256 + (q' * 16 + r)) * 256 + (r' * 64 + t)
  {
  }

  lemma ShortExamples()
    ensures Encode("") == "" && Encode("f") == "Zg==" && Encode("fo") == "Zm8="
    ensures Encode("b") == "Yg==" && Encode("ba") == "YmE="
  {
  }

  lemma FullQuad(data: string)
    requires IsBytes(data) && |data| > 2
    ensures Encode(data) == Quad(data[0], data[1], data[2]) + Encode(data[3..])
  {
  }

  /** The examples of section 10 of RFC 4648. */
  lemma Examples()
    ensures Encode("") == "" && Encode("f") == "Zg==" && Encode("fo") == "Zm8=" && Encode("foo") == "Zm9v"
    ensures Encode("foob") == "Zm9vYg==" && Encode("fooba") == "Zm9vYmE=" && Encode("foobar") == "Zm9vYmFy"
  {
    ShortExamples();
    FullQuad("foo");
    FullQuad("foob");
    FullQuad("fooba");
    FullQuad("foobar");
    FullQuad("bar");
    assert "foo"[3..] == "bar"[3..] == "" && "foob"[3..] == "b" && "fooba"[3..] == "ba" && "foobar"[3..] == "bar";
    assert Quad('f', 'o', 'o') == "Zm9v" && Quad('b', 'a', 'r') == "YmFy";
  }

  /** A character of the alphabet. */
  predicate Letter(c: char) {
    'A' <= c <= 'Z' || 'a' <= c <= 'z' || '0' <= c <= '9' || c == '-' || c == '_'
  }

  /** Groups of four characters, the last of which may end in one or two paddings. */
  predicate WellFormed(s: string) {
    && |s| % 4 == 0
    && forall i :: 0 <= i < |s| ==>
         || Letter(s[i])
         || (s[i] == '=' && (i == |s| - 1 || (i == |s| - 2 && s[|s| - 1] == '=')))
  }

  lemma GroupThenRest(s: string)
    requires |s| > 4
    ensures Groups(s).Some? <==>
      Letter(s[0]) && Letter(s[1]) && Letter(s[2]) && Letter(s[3]) && Groups(s[4..]).Some?
  {
    NoPadding(s);
  }

  lemma NoPadding(s: string)
    requires |s| > 4
    ensures s[2..] != "==" && s[3..] != "="
  {
    assert |s[2..]| > 2 && |s[3..]| > 1;
  }

  lemma LongWellFormed(s: string)
    requires |s| > 4
    ensures WellFormed(s) <==>
      Letter(s[0]) && Letter(s[1]) && Letter(s[2]) && Letter(s[3]) && WellFormed(s[4..])
  {
    var rest := s[4..];
    assert rest[|rest| - 1] == s[|s| - 1];
    if Letter(s[0]) && Letter(s[1]) && Letter(s[2]) && Letter(s[3]) && WellFormed(rest) {
      assert forall i :: 4 <= i < |s| ==> s[i] == rest[i - 4];
    }
    if WellFormed(s) {
      assert forall i :: 0 <= i < |rest| ==> rest[i] == s[i + 4];
    }
  }

  lemma OneGroup(s: string)
    requires |s| == 4
    ensures Groups(s).Some? <==> WellFormed(s)
  {
    assert s[4..] == "" && Groups("").Some?;
    assert s[2..] == [s[2], s[3]] && s[3..] == [s[3]];
  }

  lemma {:induction false} GroupsIff(s: string)
    ensures Groups(s).Some? <==> WellFormed(s)
  {
    if |s| > 4 {
      GroupsIff(s[4..]);
      GroupThenRest(s);
      LongWellFormed(s);
    } else if |s| == 4 {
      OneGroup(s);
    }
  }

  /** Exactly those tokens decode, line breaks left aside. */
  lemma DecodableIff(token: string)
    ensures Decode(token).Some? <==> WellFormed(DropNewlines(token))
  {
    GroupsIff(DropNewlines(token));
  }
}
