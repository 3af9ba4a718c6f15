/** The list cursor of worker/internal/a2astore/schema.go: a decimal time, a bar and a task id, in base64url. */
module Cursor {
  import opened Bytes
  import opened Wrappers

  // ---------------------------------------------------------------- base64url, section 5 of RFC 4648

  type Sextet = n: nat | n < 64

  function EncodeSextet(n: Sextet): byte {
    if n < 26 then (n + 65) as byte          // A-Z
    else if n < 52 then (n + 71) as byte     // a-z
    else if n < 62 then (n - 4) as byte      // 0-9
    else if n == 62 then 45                  // -
    else 95                                  // _
  }

  function DecodeSextet(c: byte): Result<Sextet> {
    if 65 <= c <= 90 then Ok(c as int - 65)
    else if 97 <= c <= 122 then Ok(c as int - 71)
    else if 48 <= c <= 57 then Ok(c as int + 4)
    else if c == 45 then Ok(62)
    else if c == 95 then Ok(63)
    else Err(Invalid)
  }

  /** Three bytes become four sextets; a rest of one or two bytes becomes two or three, without padding. */
  function Sextets(data: Text): seq<Sextet>
    decreases |data|
  {
    if data == [] then []
    else
      var a := data[0] as int;
      if |data| == 1 then [a / 4, a % 4 * 16]
      else
        var b := data[1] as int;
        if |data| == 2 then [a / 4, a % 4 * 16 + b / 16, b % 16 * 4]
        else
          var c := data[2] as int;
          [a / 4, a % 4 * 16 + b / 16, b % 16 * 4 + c / 64, c % 64] + Sextets(data[3..])
  }

  /** The inverse; a single trailing sextet cannot be decoded. */
  function Octets(s: seq<Sextet>): Result<Text>
    decreases |s|
  {
    if s == [] then Ok([])
    else if |s| == 1 then Err(Invalid)
    else
      var a := (s[0] as int * 4 + s[1] / 16) as byte;
      if |s| == 2 then Ok([a])
      else
        var b := (s[1] as int % 16 * 16 + s[2] / 4) as byte;
        if |s| == 3 then Ok([a, b])
        else
          var c := (s[2] as int % 4 * 64 + s[3]) as byte;
          match Octets(s[4..])
          case Ok(rest) => Ok([a, b, c] + rest)
          case Err(e) => Err(e)
  }

  function EncodeBase64(data: Text): Text {
    var s := Sextets(data);
    seq(|s|, i requires 0 <= i < |s| => EncodeSextet(s[i]))
  }

  function DecodeSextets(token: Text): Result<seq<Sextet>> {
    if token == [] then Ok([])
    else if token[0] == 10 || token[0] == 13 then DecodeSextets(token[1..]) // line breaks are skipped
    else
      match DecodeSextet(token[0])
      case Err(e) => Err(e)
      case Ok(n) =>
        match DecodeSextets(token[1..])
        case Ok(rest) => Ok([n] + rest)
        case Err(e) => Err(e)
  }

  function DecodeBase64(token: Text): Result<Text> {
    match DecodeSextets(token)
    case Ok(s) => Octets(s)
    case Err(e) => Err(e)
  }

  lemma SextetRoundTrip(n: Sextet)
    ensures DecodeSextet(EncodeSextet(n)) == Ok(n) && EncodeSextet(n) != 10 && EncodeSextet(n) != 13
  {
  }

  lemma {:induction false} DecodeEncodedSextets(s: seq<Sextet>, token: Text)
    requires |token| == |s| && forall i :: 0 <= i < |s| ==> token[i] == EncodeSextet(s[i])
    ensures DecodeSextets(token) == Ok(s)
  {
    if s != [] {
      SextetRoundTrip(s[0]);
      DecodeEncodedSextets(s[1..], token[1..]);
      assert s == [s[0]] + s[1..];
    }
  }

  /** Four sextets of three bytes give the bytes back. */
  lemma TripleRoundTrip(a: byte, b: byte, c: byte)
    ensures var s := [a as int / 4, a as int % 4 * 16 + b as int / 16, b as int % 16 * 4 + c as int / 64,
                      c as int % 64];
            && s[0] * 4 + s[1] / 16 == a as int && s[1] % 16 * 16 + s[2] / 4 == b as int
            && s[2] % 4 * 64 + s[3] == c as int
  {
  }

  lemma OctetsOfFour(s: seq<Sextet>, a: byte, b: byte, c: byte, rest: seq<Sextet>, tail: Text)
    requires |s| == 4 && Octets(rest) == Ok(tail)
    requires s[0] as int * 4 + s[1] / 16 == a as int && s[1] as int % 16 * 16 + s[2] / 4 == b as int
    requires s[2] as int % 4 * 64 + s[3] == c as int
    ensures Octets(s + rest) == Ok([a, b, c] + tail)
  {
    assert (s + rest)[4..] == rest;
  }

  lemma OctetsOfTriple(a: byte, b: byte, c: byte, rest: seq<Sextet>, tail: Text)
    requires Octets(rest) == Ok(tail)
    ensures Octets([a as int / 4, a as int % 4 * 16 + b as int / 16, b as int % 16 * 4 + c as int / 64,
                    c as int % 64] + rest)
            == Ok([a, b, c] + tail)
  {
    TripleRoundTrip(a, b, c);
    OctetsOfFour([a as int / 4, a as int % 4 * 16 + b as int / 16, b as int % 16 * 4 + c as int / 64, c as int % 64],
                 a, b, c, rest, tail);
  }

  lemma {:induction false} OctetRoundTrip(data: Text)
    ensures Octets(Sextets(data)) == Ok(data)
    decreases |data|
  {
    if |data| >= 3 {
      OctetRoundTrip(data[3..]);
      OctetsOfTriple(data[0], data[1], data[2], Sextets(data[3..]), data[3..]);
      assert data == [data[0], data[1], data[2]] + data[3..];
    } else if |data| == 2 {
      assert data == [data[0], data[1]];
      TripleRoundTrip(data[0], data[1], 0);
    } else if |data| == 1 {
      assert data == [data[0]];
      TripleRoundTrip(data[0], 0, 0);
    }
  }

  lemma Base64RoundTrip(data: Text)
    ensures DecodeBase64(EncodeBase64(data)) == Ok(data)
  {
    DecodeEncodedSextets(Sextets(data), EncodeBase64(data));
    OctetRoundTrip(data);
  }

  // ---------------------------------------------------------------- decimal numbers

  const MAX_INT64: int := 0x7FFF_FFFF_FFFF_FFFF

  function FormatNat(n: nat): (s: Text)
    ensures s != [] && forall i :: 0 <= i < |s| ==> 48 <= s[i] <= 57
  {
    if n < 10 then [(n + 48) as byte] else FormatNat(n / 10) + [(n % 10 + 48) as byte]
  }

  /** strconv.FormatInt in base 10. */
  function FormatInt(n: int): Text {
    if n < 0 then [45] + FormatNat(-n) else FormatNat(n)
  }

  /** The value of a digit string; the empty string and any other byte are errors. */
  function ParseNat(s: Text): Result<nat>
    decreases |s|
  {
    if s == [] then Err(Invalid)
    else
      var last := s[|s| - 1];
      if !(48 <= last <= 57) then Err(Invalid)
      else if |s| == 1 then Ok(last as int - 48)
      else
        match ParseNat(s[..|s| - 1])
        case Ok(n) => Ok(n * 10 + (last as int - 48))
        case Err(e) => Err(e)
  }

  /** strconv.ParseInt in base 10 with 64 bits: an optional sign, digits, and a range check. */
  function ParseInt(s: Text): Result<int> {
    var negative := s != [] && s[0] == 45;
    var digits := if s != [] && (s[0] == 43 || s[0] == 45) then s[1..] else s;
    match ParseNat(digits)
    case Err(e) => Err(e)
    case Ok(n) =>
      if negative then (if n <= MAX_INT64 + 1 then Ok(-(n as int)) else Err(Invalid))
      else if n <= MAX_INT64 then Ok(n) else Err(Invalid)
  }

  lemma {:induction false} ParseFormattedNat(n: nat)
    ensures ParseNat(FormatNat(n)) == Ok(n)
  {
    if n >= 10 {
      ParseFormattedNat(n / 10);
      var s := FormatNat(n);
      assert s[..|s| - 1] == FormatNat(n / 10);
    }
  }

  // ---------------------------------------------------------------- the cursor

  const BAR: byte := 124

  function EncodeCursor(updatedAt: int, taskID: Text): Text {
    EncodeBase64(FormatInt(updatedAt) + [BAR] + taskID)
  }

  /** Index of the first bar, or the length when there is none (strings.SplitN with limit 2). */
  function FirstBar(s: Text): (k: nat)
    ensures k <= |s| && (k < |s| ==> s[k] == BAR)
    ensures forall i :: 0 <= i < k ==> s[i] != BAR
  {
    if s == [] || s[0] == BAR then 0 else FirstBar(s[1..]) + 1
  }

  /** An empty token means the start of the list: time 0 and no id. */
  function DecodeCursor(token: Text): Result<(int, Text)> {
    if token == [] then Ok((0, []))
    else
      match DecodeBase64(token)
      case Err(e) => Err(e)
      case Ok(raw) =>
        var k := FirstBar(raw);
        if k == |raw| || raw[k + 1..] == [] then Err(Invalid)
        else
          match ParseInt(raw[..k])
          case Err(e) => Err(e)
          case Ok(updatedAt) =>
            if updatedAt <= 0 then Err(Invalid) else Ok((updatedAt, raw[k + 1..]))
  }

  lemma FirstBarIs(s: Text, k: nat)
    requires k < |s| && s[k] == BAR && forall i :: 0 <= i < k ==> s[i] != BAR
    ensures FirstBar(s) == k
  {
  }

  lemma ParseFormattedInt(n: nat)
    requires n <= MAX_INT64
    ensures ParseInt(FormatInt(n)) == Ok(n)
  {
    ParseFormattedNat(n);
  }

  lemma RawParts(digits: Text, taskID: Text)
    requires forall i :: 0 <= i < |digits| ==> digits[i] != BAR
    ensures var raw := digits + [BAR] + taskID;
            FirstBar(raw) == |digits| < |raw| && raw[..|digits|] == digits && raw[|digits| + 1..] == taskID
  {
    var raw := digits + [BAR] + taskID;
    FirstBarIs(raw, |digits|);
  }

  lemma EncodedIsNotEmpty(data: Text)
    requires data != []
    ensures EncodeBase64(data) != []
  {
    assert |Sextets(data)| > 0;
  }

  lemma DecodeRaw(digits: Text, taskID: Text)
    requires forall i :: 0 <= i < |digits| ==> digits[i] != BAR
    ensures EncodeBase64(digits + [BAR] + taskID) != []
    ensures DecodeBase64(EncodeBase64(digits + [BAR] + taskID)) == Ok(digits + [BAR] + taskID)
  {
    var raw := digits + [BAR] + taskID;
    EncodedIsNotEmpty(raw);
    Base64RoundTrip(raw);
  }

  /** Decoding undoes encoding for every positive time and non-empty id, also for ids that contain a bar. */
  lemma CursorRoundTrip(updatedAt: int, taskID: Text)
    requires 0 < updatedAt <= MAX_INT64 && taskID != []
    ensures DecodeCursor(EncodeCursor(updatedAt, taskID)) == Ok((updatedAt, taskID))
    ensures EncodeCursor(updatedAt, taskID) != []
  {
    var digits := FormatInt(updatedAt);
    DecodeRaw(digits, taskID);
    RawParts(digits, taskID);
    ParseFormattedInt(updatedAt);
  }

  /** Times that are not positive and empty ids never come back: exactly these cursors are refused. */
  lemma CursorRoundTripIff(updatedAt: int, taskID: Text)
    requires -MAX_INT64 - 1 <= updatedAt <= MAX_INT64
    ensures DecodeCursor(EncodeCursor(updatedAt, taskID)) == Ok((updatedAt, taskID))
            <==> 0 < updatedAt && taskID != []
  {
    if 0 < updatedAt && taskID != [] {
      CursorRoundTrip(updatedAt, taskID);
    } else {
      var digits := FormatInt(updatedAt);
      DecodeRaw(digits, taskID);
      RawParts(digits, taskID);
    }
  }
}
