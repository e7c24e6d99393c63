/** The unpadded base64url layer of audit cursors: section 5 of RFC 4648, with the padding
    omitted as section 3.2 allows. `Decode` follows the lenient reader of Python's `binascii`,
    which skips characters outside the alphabet. */
module Base64Url {
  import opened Base

  type byte = b: nat | b < 256

  function CharOf(v: nat): char
    requires v < 64
  {
    if v < 26 then 'A' + v as char
    else if v < 52 then 'a' + (v - 26) as char
    else if v < 62 then '0' + (v - 52) as char
    else if v == 62 then '-' else '_'
  }

  function ValueOf(c: char): Option<nat> {
    if 'A' <= c <= 'Z' then Some((c - 'A') as nat)
    else if 'a' <= c <= 'z' then Some((c - 'a') as nat + 26)
    else if '0' <= c <= '9' then Some((c - '0') as nat + 52)
    else if c == '-' || c == '+' then Some(62)
    else if c == '_' || c == '/' then Some(63)
    else None
  }

  /** `urlsafe_b64encode`, padding included. */
  function Encode(b: seq<byte>): string {
    if |b| == 0 then ""
    else if |b| == 1 then [CharOf(b[0] / 4), CharOf(b[0] % 4 * 16), '=', '=']
    else if |b| == 2 then
      [CharOf(b[0] / 4), CharOf(b[0] % 4 * 16 + b[1] / 16), CharOf(b[1] % 16 * 4), '=']
    else
      [CharOf(b[0] / 4), CharOf(b[0] % 4 * 16 + b[1] / 16), CharOf(b[1] % 16 * 4 + b[2] / 64), CharOf(b[2] % 64)]
      + Encode(b[3..])
  }

  /** `rstrip("=")`. */
  function Strip(s: string): string {
    if s != "" && s[|s| - 1] == '=' then Strip(s[..|s| - 1]) else s
  }

  /** `s + "=" * (-len(s) % 4)`. */
  function Pad(s: string): string {
    s + seq(-|s| % 4, _ => '=')
  }

  function Prepend(b: byte, rest: Option<seq<byte>>): Option<seq<byte>> {
    if rest.Some? then Some([b] + rest.value) else None
  }

  /** `binascii.a2b_base64`: `quad` digits of the current group have been read, `left` holds
      their bits that are not yet output, `pads` counts the padding characters after them. */
  function Read(s: string, quad: nat, left: nat, pads: nat): Option<seq<byte>>
    requires quad < 4
    requires left < (match quad case 0 => 1 case 1 => 64 case 2 => 16 case _ => 4)
  {
    if s == "" then (if quad == 0 then Some([]) else None)
    else if s[0] == '=' then
      if quad >= 2 && quad + pads + 1 >= 4 then Some([])
      else Read(s[1..], quad, left, if quad >= 2 then pads + 1 else pads)
    else
      match ValueOf(s[0])
      case None => Read(s[1..], quad, left, pads)
      case Some(v) =>
        match quad
        case 0 => Read(s[1..], 1, v, 0)
        case 1 => Prepend(left * 4 + v / 16, Read(s[1..], 2, v % 16, 0))
        case 2 => Prepend(left * 16 + v / 4, Read(s[1..], 3, v % 4, 0))
        case _ => Prepend(left * 64 + v, Read(s[1..], 0, 0, 0))
  }

  predicate IsAscii(s: string) {
    forall i :: 0 <= i < |s| ==> s[i] as int < 128
  }

  function Decode(s: string): Option<seq<byte>> {
    if IsAscii(s) then Read(Pad(s), 0, 0, 0) else None
  }

  lemma ValueOfChar(v: nat)
    requires v < 64
    ensures ValueOf(CharOf(v)) == Some(v) && CharOf(v) != '=' && CharOf(v) as int < 128
    ensures CharOf(v) != '+' && CharOf(v) != '/'
  {
  }

  lemma ReadDigit(v: nat, rest: string, quad: nat, left: nat, pads: nat)
    requires v < 64 && quad < 4
    requires left < (match quad case 0 => 1 case 1 => 64 case 2 => 16 case _ => 4)
    ensures Read([CharOf(v)] + rest, quad, left, pads)
            == match quad
               case 0 => Read(rest, 1, v, 0)
               case 1 => Prepend(left * 4 + v / 16, Read(rest, 2, v % 16, 0))
               case 2 => Prepend(left * 16 + v / 4, Read(rest, 3, v % 4, 0))
               case _ => Prepend(left * 64 + v, Read(rest, 0, 0, 0))
  {
  }

  lemma Regroup(a: byte, b: byte, c: byte)
    ensures a / 4 < 64 && a % 4 * 16 + b / 16 < 64 && b % 16 * 4 + c / 64 < 64
    ensures (a % 4 * 16 + b / 16) / 16 == a % 4 && (a % 4 * 16 + b / 16) % 16 == b / 16
    ensures (b % 16 * 4 + c / 64) / 4 == b % 16 && (b % 16 * 4 + c / 64) % 4 == c / 64
    ensures a / 4 * 4 + a % 4 == a && b / 16 * 16 + b % 16 == b && c / 64 * 64 + c % 64 == c
  {
  }

  lemma ReadGroup(a: byte, b: byte, c: byte, v1: nat, v2: nat, rest: string)
    requires v1 < 64 && v1 / 16 == a % 4 && v1 % 16 == b / 16
    requires v2 < 64 && v2 / 4 == b % 16 && v2 % 4 == c / 64
    ensures Read([CharOf(a / 4), CharOf(v1), CharOf(v2), CharOf(c % 64)] + rest, 0, 0, 0)
            == Prepend(a, Prepend(b, Prepend(c, Read(rest, 0, 0, 0))))
  {
    var v0, v3 := a / 4, c % 64;
    var r3 := [CharOf(v3)] + rest;
    var r2 := [CharOf(v2)] + r3;
    var r1 := [CharOf(v1)] + r2;
    assert [CharOf(v0), CharOf(v1), CharOf(v2), CharOf(v3)] + rest == [CharOf(v0)] + r1;
    Regroup(a, b, c);
    ReadDigit(v0, r1, 0, 0, 0);
    ReadDigit(v1, r2, 1, v0, 0);
    ReadDigit(v2, r3, 2, b / 16, 0);
    ReadDigit(v3, rest, 3, c / 64, 0);
  }

  lemma ReadTail1(a: byte)
    ensures Read([CharOf(a / 4), CharOf(a % 4 * 16), '=', '='], 0, 0, 0) == Some([a])
  {
    var v0, v1 := a / 4, a % 4 * 16;
    Regroup(a, 0, 0);
    assert [CharOf(v0), CharOf(v1), '=', '='] == [CharOf(v0)] + ([CharOf(v1)] + "==");
    ReadDigit(v0, [CharOf(v1)] + "==", 0, 0, 0);
    ReadDigit(v1, "==", 1, v0, 0);
    assert v1 / 16 == a % 4 && v1 % 16 == 0;
    assert "=="[1..] == "=";
    assert Read("==", 2, 0, 0) == Read("=", 2, 0, 1) == Some([]);
    assert a / 4 * 4 + a % 4 == a;
    assert [a] + [] == [a];
  }

  lemma ReadTail2(a: byte, b: byte, v1: nat)
    requires v1 < 64 && v1 / 16 == a % 4 && v1 % 16 == b / 16
    ensures Read([CharOf(a / 4), CharOf(v1), CharOf(b % 16 * 4), '='], 0, 0, 0) == Some([a, b])
  {
    var v0, v2 := a / 4, b % 16 * 4;
    Regroup(a, b, 0);
    assert [CharOf(v0), CharOf(v1), CharOf(v2), '='] == [CharOf(v0)] + ([CharOf(v1)] + ([CharOf(v2)] + "="));
    ReadDigit(v0, [CharOf(v1)] + ([CharOf(v2)] + "="), 0, 0, 0);
    ReadDigit(v1, [CharOf(v2)] + "=", 1, v0, 0);
    ReadDigit(v2, "=", 2, b / 16, 0);
    assert v2 / 4 == b % 16 && v2 % 4 == 0;
    assert Read("=", 3, 0, 0) == Some([]);
    assert a / 4 * 4 + a % 4 == a && b / 16 * 16 + b % 16 == b;
    assert [a] + ([b] + []) == [a, b];
  }

  lemma {:induction false} ReadEncoded(b: seq<byte>)
    ensures Read(Encode(b), 0, 0, 0) == Some(b)
  {
    if |b| == 1 {
      ReadTail1(b[0]);
      assert b == [b[0]];
    } else if |b| == 2 {
      Regroup(b[0], b[1], 0);
      ReadTail2(b[0], b[1], b[0] % 4 * 16 + b[1] / 16);
      assert b == [b[0], b[1]];
    } else if |b| > 2 {
      Regroup(b[0], b[1], b[2]);
      ReadGroup(b[0], b[1], b[2], b[0] % 4 * 16 + b[1] / 16, b[1] % 16 * 4 + b[2] / 64, Encode(b[3..]));
      ReadEncoded(b[3..]);
      assert b == [b[0]] + ([b[1]] + ([b[2]] + b[3..]));
    }
  }

  function Padding(n: nat): nat {
    if n % 3 == 1 then 2 else if n % 3 == 2 then 1 else 0
  }

  predicate UrlDigit(c: char) {
    c != '=' && c != '+' && c != '/' && ValueOf(c).Some?
  }

  /** Encoded text is whole groups of four: URL-safe digits, then the padding and only it. */
  ghost predicate Shape(s: string, n: nat) {
    var p := Padding(n);
    && |s| == (n + 2) / 3 * 4
    && p <= |s|
    && (forall i :: 0 <= i < |s| - p ==> UrlDigit(s[i]))
    && (forall i :: |s| - p <= i < |s| ==> s[i] == '=')
  }

  lemma GroupShape(v0: nat, v1: nat, v2: nat, v3: nat, rest: string, n: nat)
    requires v0 < 64 && v1 < 64 && v2 < 64 && v3 < 64 && Shape(rest, n)
    ensures Shape([CharOf(v0), CharOf(v1), CharOf(v2), CharOf(v3)] + rest, n + 3)
  {
  }

  /** What the length of an encoding is and where its padding stands. */
  lemma {:induction false} EncodedShape(b: seq<byte>)
    ensures Shape(Encode(b), |b|)
  {
    if |b| == 1 {
      Regroup(b[0], 0, 0);
      ValueOfChar(b[0] / 4);
      ValueOfChar(b[0] % 4 * 16);
    } else if |b| == 2 {
      Regroup(b[0], b[1], 0);
      ValueOfChar(b[0] / 4);
      ValueOfChar(b[0] % 4 * 16 + b[1] / 16);
      ValueOfChar(b[1] % 16 * 4);
    } else if |b| > 2 {
      Regroup(b[0], b[1], b[2]);
      EncodedShape(b[3..]);
      GroupShape(b[0] / 4, b[0] % 4 * 16 + b[1] / 16, b[1] % 16 * 4 + b[2] / 64, b[2] % 64, Encode(b[3..]), |b| - 3);
    }
  }

  lemma {:induction false} StripIs(s: string, p: nat)
    requires p <= |s| && (forall i :: |s| - p <= i < |s| ==> s[i] == '=')
    requires |s| > p ==> s[|s| - p - 1] != '='
    ensures Strip(s) == s[..|s| - p]
  {
    if p == 0 {
      assert s[..|s|] == s;
    } else {
      StripIs(s[..|s| - 1], p - 1);
      assert s[..|s| - 1][..|s| - p] == s[..|s| - p];
    }
  }

  /** Stripping the padding loses nothing: `-len % 4` characters put it back, at every length. */
  lemma PadUndoesStrip(b: seq<byte>)
    ensures Pad(Strip(Encode(b))) == Encode(b)
    ensures forall i :: 0 <= i < |Strip(Encode(b))| ==> UrlDigit(Strip(Encode(b))[i])
    ensures Strip(Encode(b)) == "" <==> b == []
  {
    var s, p := Encode(b), Padding(|b|);
    EncodedShape(b);
    StripIs(s, p);
    var digits := s[..|s| - p];
    assert |digits| == (|b| + 2) / 3 * 4 - p;
    PaddingRestored((|b| + 2) / 3, p);
    assert s == digits + s[|s| - p..];
    assert s[|s| - p..] == seq(p, _ => '=');
  }

  lemma PaddingRestored(groups: nat, p: nat)
    requires p < 4
    ensures -(groups * 4 - p) % 4 == p
  {
  }

  /** Decoding undoes encoding with the padding stripped, for every payload. */
  lemma UnpaddedRoundTrip(b: seq<byte>)
    ensures Decode(Strip(Encode(b))) == Some(b)
  {
    PadUndoesStrip(b);
    ReadEncoded(b);
  }
}
