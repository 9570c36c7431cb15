/** The HTTP codecs of internal/api/http.go: content digests, revision tags and
    resource actions. Base64 and base16 follow sections 4 and 8 of RFC 4648. */
module HttpCodecs {
  import opened Outcome

  type Byte = x: int | 0 <= x < 256

  // ---- Base16 ----

  function HexDigit(v: nat): char
    requires v < 16
  {
    if v < 10 then ('0' as int + v) as char else ('a' as int + v - 10) as char
  }

  function HexValue(c: char): Option<nat> {
    if '0' <= c <= '9' then Some(c as int - '0' as int)
    else if 'a' <= c <= 'f' then Some(c as int - 'a' as int + 10)
    else if 'A' <= c <= 'F' then Some(c as int - 'A' as int + 10)
    else None
  }

  function HexEncode(bytes: seq<Byte>): string {
    if bytes == [] then "" else [HexDigit(bytes[0] / 16), HexDigit(bytes[0] % 16)] + HexEncode(bytes[1..])
  }

  function HexDecode(s: string): Option<seq<Byte>> {
    if s == "" then Some([])
    else if |s| == 1 || HexValue(s[0]).None? || HexValue(s[1]).None? then None
    else
      var rest := HexDecode(s[2..]);
      if rest.None? then None else Some([HexByte(s[0], s[1])] + rest.value)
  }

  function HexByte(high: char, low: char): Byte
    requires HexValue(high).Some? && HexValue(low).Some?
  {
    HexRange(high);
    HexRange(low);
    HexValue(high).value * 16 + HexValue(low).value
  }

  lemma HexRange(c: char)
    ensures HexValue(c).Some? ==> HexValue(c).value < 16
  {
  }

  function Lower(s: string): string {
    if s == "" then "" else [if 'A' <= s[0] <= 'Z' then (s[0] as int + 32) as char else s[0]] + Lower(s[1..])
  }

  /** Decoding accepts either case; encoding prints the lower one. */
  lemma {:induction false} HexRoundTrip(s: string)
    requires HexDecode(s).Some?
    ensures HexEncode(HexDecode(s).value) == Lower(s) && |s| == 2 * |HexDecode(s).value|
  {
    if s != "" {
      HexRoundTrip(s[2..]);
      var b := HexByte(s[0], s[1]);
      assert HexDecode(s).value[1..] == HexDecode(s[2..]).value;
      assert b / 16 == HexValue(s[0]).value && b % 16 == HexValue(s[1]).value;
      assert Lower(s) == [Lower(s)[0], Lower(s)[1]] + Lower(s[2..]) by { assert s[1..][1..] == s[2..]; }
    }
  }

  // ---- Base64 ----

  function Char64(v: nat): char
    requires v < 64
  {
    if v < 26 then ('A' as int + v) as char
    else if v < 52 then ('a' as int + v - 26) as char
    else if v < 62 then ('0' as int + v - 52) as char
    else if v == 62 then '+' else '/'
  }

  function Value64(c: char): (v: Option<nat>)
    ensures v.Some? ==> v.value < 64 && Char64(v.value) == c
  {
    if 'A' <= c <= 'Z' then Some(c as int - 'A' as int)
    else if 'a' <= c <= 'z' then Some(c as int - 'a' as int + 26)
    else if '0' <= c <= '9' then Some(c as int - '0' as int + 52)
    else if c == '+' then Some(62) else if c == '/' then Some(63) else None
  }

  lemma Value64Inverts(v: nat)
    requires v < 64
    ensures Value64(Char64(v)) == Some(v) && Char64(v) != '=' && Char64(v) != '\n' && Char64(v) != '\r'
  {
  }

  function Encode64(b: seq<Byte>): string {
    if |b| == 0 then ""
    else if |b| == 1 then [Char64(b[0] / 4), Char64(b[0] % 4 * 16), '=', '=']
    else if |b| == 2 then [Char64(b[0] / 4), Char64(b[0] % 4 * 16 + b[1] / 16), Char64(b[1] % 16 * 4), '=']
    else Quantum(b[0], b[1], b[2]) + Encode64(b[3..])
  }

  function Quantum(x: Byte, y: Byte, z: Byte): string {
    [Char64(x / 4), Char64(x % 4 * 16 + y / 16), Char64(y % 16 * 4 + z / 64), Char64(z % 64)]
  }

  /** Strict decoding: full quanta, padding only at the end, no stray bits. */
  function Decode64(s: string): Option<seq<Byte>> {
    if s == "" then Some([])
    else if |s| < 4 || Value64(s[0]).None? || Value64(s[1]).None? then None
    else if s[3] == '=' then (if |s| == 4 then DecodeTail(s) else None)
    else if Value64(s[2]).None? || Value64(s[3]).None? then None
    else
      var rest := Decode64(s[4..]);
      if rest.None? then None
      else Some(Bytes3(Value64(s[0]).value, Value64(s[1]).value, Value64(s[2]).value, Value64(s[3]).value) + rest.value)
  }

  function Bytes3(p: nat, q: nat, r: nat, t: nat): seq<Byte>
    requires p < 64 && q < 64 && r < 64 && t < 64
  {
    [p * 4 + q / 16, q % 16 * 16 + r / 4, r % 4 * 64 + t]
  }

  function DecodeTail(s: string): Option<seq<Byte>>
    requires |s| == 4 && Value64(s[0]).Some? && Value64(s[1]).Some?
  {
    var p, q := Value64(s[0]).value, Value64(s[1]).value;
    if s[2] == '=' then (if q % 16 == 0 then Some([p * 4 + q / 16]) else None)
    else if Value64(s[2]).None? || Value64(s[2]).value % 4 != 0 then None
    else Some([p * 4 + q / 16, q % 16 * 16 + Value64(s[2]).value / 4])
  }

  predicate Plain(s: string) {
    forall i :: 0 <= i < |s| ==> s[i] != '\n' && s[i] != '\r'
  }

  lemma DecodeOne(x: Byte)
    ensures var s := Encode64([x]); Decode64(s) == Some([x]) && Plain(s)
  {
    Value64Inverts(x / 4);
    Value64Inverts(x % 4 * 16);
    assert Encode64([x]) == [Char64(x / 4), Char64(x % 4 * 16), '=', '='];
    assert x / 4 * 4 + x % 4 * 16 / 16 == x;
  }

  lemma DecodeTwo(x: Byte, y: Byte)
    ensures var s := Encode64([x, y]); Decode64(s) == Some([x, y]) && Plain(s)
  {
    Value64Inverts(x / 4);
    Value64Inverts(x % 4 * 16 + y / 16);
    Value64Inverts(y % 16 * 4);
    assert Encode64([x, y]) == [Char64(x / 4), Char64(x % 4 * 16 + y / 16), Char64(y % 16 * 4), '='];
    TwoBytes(x, y);
  }

  lemma TwoBytes(x: Byte, y: Byte)
    ensures x / 4 * 4 + (x % 4 * 16 + y / 16) / 16 == x
            && (x % 4 * 16 + y / 16) % 16 * 16 + y % 16 * 4 / 4 == y && y % 16 * 4 % 4 == 0
  {
  }

  lemma DecodeQuantum(x: Byte, y: Byte, z: Byte, rest: string)
    requires Decode64(rest).Some?
    ensures Decode64(Quantum(x, y, z) + rest) == Some([x, y, z] + Decode64(rest).value) && Plain(Quantum(x, y, z))
  {
    Value64Inverts(x / 4);
    Value64Inverts(x % 4 * 16 + y / 16);
    Value64Inverts(y % 16 * 4 + z / 64);
    Value64Inverts(z % 64);
    QuantumInverts(x, y, z);
    assert (Quantum(x, y, z) + rest)[4..] == rest;
  }

  lemma QuantumInverts(x: Byte, y: Byte, z: Byte)
    ensures Bytes3(x / 4, x % 4 * 16 + y / 16, y % 16 * 4 + z / 64, z % 64) == [x, y, z]
  {
  }

  ghost predicate Inverts(b: seq<Byte>) {
    Decode64(Encode64(b)) == Some(b) && Plain(Encode64(b)) && |Encode64(b)| >= |b|
  }

  lemma InvertsLong(b: seq<Byte>)
    requires |b| >= 3 && Inverts(b[3..])
    ensures Inverts(b)
  {
    var rest := Encode64(b[3..]);
    DecodeQuantum(b[0], b[1], b[2], rest);
    assert Encode64(b) == Quantum(b[0], b[1], b[2]) + rest;
    assert b == [b[0], b[1], b[2]] + b[3..];
  }

  lemma InvertsShort(b: seq<Byte>)
    requires |b| < 3
    ensures Inverts(b)
  {
    if |b| == 2 {
      DecodeTwo(b[0], b[1]);
      assert b == [b[0], b[1]];
    } else if |b| == 1 {
      DecodeOne(b[0]);
      assert b == [b[0]];
    }
  }

  /** Strict decoding undoes encoding, for byte strings of any length. */
  lemma {:induction false} DecodeInverts(b: seq<Byte>)
    ensures Inverts(b)
  {
    if |b| >= 3 {
      DecodeInverts(b[3..]);
      InvertsLong(b);
    } else {
      InvertsShort(b);
    }
  }

  // ---- Digests ----

  const DIGEST_PREFIX := "sha-256=:"
  const CHECKSUM_PREFIX := "sha256:"
  const DIGEST_SIZE: nat := 32

  function WithoutNewlines(s: string): string {
    if s == "" then "" else (if s[0] == '\n' || s[0] == '\r' then "" else [s[0]]) + WithoutNewlines(s[1..])
  }

  function WithoutColon(s: string): string {
    if s != "" && s[|s| - 1] == ':' then s[..|s| - 1] else s
  }

  /** The decoder skips line breaks; printing the bytes again exposes them. */
  function ParseDigest(value: string): Option<string> {
    if !(DIGEST_PREFIX <= value) || value[|value| - 1] != ':' then None
    else
      var encoded := WithoutColon(value[|DIGEST_PREFIX|..]);
      var decoded := Decode64(WithoutNewlines(encoded));
      if decoded.None? || |decoded.value| != DIGEST_SIZE || Encode64(decoded.value) != encoded then None
      else Some(HexEncode(decoded.value))
  }

  function DigestOf(bytes: seq<Byte>): string {
    DIGEST_PREFIX + Encode64(bytes) + ":"
  }

  function PrintDigest(checksum: string): Option<string> {
    if !(CHECKSUM_PREFIX <= checksum) then None
    else
      var decoded := HexDecode(checksum[|CHECKSUM_PREFIX|..]);
      if decoded.None? || |decoded.value| != DIGEST_SIZE then None else Some(DigestOf(decoded.value))
  }

  lemma {:induction false} NothingToStrip(s: string)
    requires Plain(s)
    ensures WithoutNewlines(s) == s
  {
    if s != "" { NothingToStrip(s[1..]); }
  }

  lemma ParsePrinted(bytes: seq<Byte>)
    requires |bytes| == DIGEST_SIZE
    ensures ParseDigest(DigestOf(bytes)) == Some(HexEncode(bytes))
  {
    DecodeInverts(bytes);
    NothingToStrip(Encode64(bytes));
    Unwrapped(Encode64(bytes));
  }

  lemma Unwrapped(encoded: string)
    ensures var value := DIGEST_PREFIX + encoded + ":";
            && DIGEST_PREFIX <= value && value[|value| - 1] == ':'
            && WithoutColon(value[|DIGEST_PREFIX|..]) == encoded
  {
    var value := DIGEST_PREFIX + encoded + ":";
    assert value[|DIGEST_PREFIX|..] == encoded + ":";
    assert (encoded + ":")[..|encoded|] == encoded;
  }

  /** What was accepted is the printed form of the bytes it was decoded to. */
  lemma AcceptedIsPrinted(value: string) returns (bytes: seq<Byte>)
    requires ParseDigest(value).Some?
    ensures |bytes| == DIGEST_SIZE && value == DigestOf(bytes) && ParseDigest(value).value == HexEncode(bytes)
  {
    var encoded := WithoutColon(value[|DIGEST_PREFIX|..]);
    bytes := Decode64(WithoutNewlines(encoded)).value;
    EncodedLength(bytes);
    PrefixAndColon(value, encoded);
  }

  lemma EncodedLength(bytes: seq<Byte>)
    ensures |Encode64(bytes)| >= |bytes|
  {
    DecodeInverts(bytes);
  }

  /** A header with more than its prefix is prefix, text and colon. */
  lemma PrefixAndColon(value: string, encoded: string)
    requires DIGEST_PREFIX <= value && value[|value| - 1] == ':' && encoded == WithoutColon(value[|DIGEST_PREFIX|..])
    requires encoded != ""
    ensures value == DIGEST_PREFIX + encoded + ":"
  {
    var rest := value[|DIGEST_PREFIX|..];
    assert value == DIGEST_PREFIX + rest && rest[|rest| - 1] == value[|value| - 1];
    assert rest == encoded + ":";
  }

  /** A digest header is accepted exactly when it is the printed form of 32 bytes. */
  lemma ParsedExactly(value: string, hex: string)
    ensures ParseDigest(value) == Some(hex) <==>
              exists bytes :: |bytes| == DIGEST_SIZE && value == DigestOf(bytes) && hex == HexEncode(bytes)
  {
    if ParseDigest(value) == Some(hex) {
      var bytes := AcceptedIsPrinted(value);
    }
    if bytes: seq<Byte> :| |bytes| == DIGEST_SIZE && value == DigestOf(bytes) && hex == HexEncode(bytes) {
      ParsePrinted(bytes);
    }
  }

  /** Printing a checksum and parsing the header gives the checksum's bytes back in
      lower case, whatever case its 64 digits had. */
  lemma DigestRoundTrip(digits: string)
    requires |digits| == 2 * DIGEST_SIZE && HexDecode(digits).Some?
    ensures var header := PrintDigest(CHECKSUM_PREFIX + digits);
            header.Some? && ParseDigest(header.value) == Some(Lower(digits))
  {
    HexRoundTrip(digits);
    assert (CHECKSUM_PREFIX + digits)[|CHECKSUM_PREFIX|..] == digits;
    ParsePrinted(HexDecode(digits).value);
  }

  // ---- Revision tags ----

  const MAX_INT64: int := 0x7fff_ffff_ffff_ffff

  function Digits(n: nat): string {
    if n < 10 then [HexDigit(n)] else Digits(n / 10) + [HexDigit(n % 10)]
  }

  predicate IsDigit(c: char) {
    '0' <= c <= '9'
  }

  /** The value of a string of digits; `None` when another character occurs. */
  function Number(s: string): Option<nat> {
    if s == "" then Some(0)
    else
      var last := s[|s| - 1];
      var front := Number(s[..|s| - 1]);
      if front.None? || !IsDigit(last) then None else Some(front.value * 10 + last as int - '0' as int)
  }

  /** `strconv.ParseInt` in base 10 with 64 bits. */
  function ParseInt64(s: string): Option<int> {
    if s == "" then None
    else
      var signed := s[0] == '+' || s[0] == '-';
      var digits := if signed then s[1..] else s;
      if digits == "" || Number(digits).None? then None
      else
        var magnitude: int := Number(digits).value;
        var n := if s[0] == '-' then -magnitude else magnitude;
        if -MAX_INT64 - 1 <= n <= MAX_INT64 then Some(n) else None
  }

  function TrimLeft(s: string): string {
    if s != "" && s[0] == '\"' then TrimLeft(s[1..]) else s
  }

  function TrimRight(s: string): string {
    if s != "" && s[|s| - 1] == '\"' then TrimRight(s[..|s| - 1]) else s
  }

  const REVISION_PREFIX := "revision-"

  function RevisionTag(revision: nat): string {
    "\"" + REVISION_PREFIX + Digits(revision) + "\""
  }

  function ParseIfMatch(header: string): Option<int> {
    var value := TrimRight(TrimLeft(header));
    var number := if REVISION_PREFIX <= value then value[|REVISION_PREFIX|..] else value;
    var revision := ParseInt64(number);
    if revision.None? || revision.value < 1 then None else revision
  }

  lemma {:induction false} NumberInverts(n: nat)
    ensures Number(Digits(n)) == Some(n) && Digits(n) != ""
    ensures forall i :: 0 <= i < |Digits(n)| ==> IsDigit(Digits(n)[i])
  {
    if n >= 10 {
      NumberInverts(n / 10);
      assert Digits(n)[..|Digits(n)| - 1] == Digits(n / 10);
    } else {
      assert Digits(n)[..0] == "";
    }
  }

  /** `parseIfMatch` undoes `setRevisionETag` for every positive 64-bit revision. */
  lemma RevisionRoundTrip(revision: nat)
    requires 1 <= revision <= MAX_INT64
    ensures ParseIfMatch(RevisionTag(revision)) == Some(revision)
  {
    NumberInverts(revision);
    var digits := Digits(revision);
    var body := REVISION_PREFIX + digits;
    assert RevisionTag(revision)[1..] == body + "\"";
    assert TrimLeft(body + "\"") == body + "\"";
    assert TrimRight(body + "\"") == TrimRight((body + "\"")[..|body|]) == body;
    assert body[|REVISION_PREFIX|..] == digits;
    assert IsDigit(digits[0]);
  }

  // ---- Resource actions ----

  function Suffixed(action: string): string {
    ":" + action
  }

  predicate EndsWith(s: string, suffix: string) {
    |suffix| <= |s| && s[|s| - |suffix|..] == suffix
  }

  /** The first listed action that `value` ends with, and the resource before it. */
  function SplitAction(value: string, actions: seq<string>): Option<(string, string)> {
    if actions == [] then None
    else
      var suffix := Suffixed(actions[0]);
      if EndsWith(value, suffix) && |value| > |suffix| then Some((value[..|value| - |suffix|], actions[0]))
      else SplitAction(value, actions[1..])
  }

  /** Either action's suffix is the tail of the other's. */
  predicate Overlaps(a: string, b: string) {
    EndsWith(Suffixed(a), Suffixed(b)) || EndsWith(Suffixed(b), Suffixed(a))
  }

  lemma SuffixesOverlap(value: string, a: string, b: string)
    requires EndsWith(value, Suffixed(a)) && EndsWith(value, Suffixed(b))
    ensures Overlaps(a, b)
  {
    var x, y := Suffixed(a), Suffixed(b);
    if |x| >= |y| { assert x[|x| - |y|..] == value[|value| - |y|..]; }
    else { assert y[|y| - |x|..] == value[|value| - |x|..]; }
  }

  lemma {:induction false} FirstMatch(value: string, actions: seq<string>, k: nat, resource: string)
    requires k < |actions| && resource != "" && value == resource + Suffixed(actions[k])
    requires forall j :: 0 <= j < k ==> !EndsWith(value, Suffixed(actions[j]))
    ensures SplitAction(value, actions) == Some((resource, actions[k]))
  {
    if k == 0 {
      assert value[|value| - |Suffixed(actions[0])|..] == Suffixed(actions[0]);
      assert value[..|resource|] == resource;
    } else {
      FirstMatch(value, actions[1..], k - 1, resource);
    }
  }

  lemma {:induction false} EarlierMatch(value: string, actions: seq<string>, j: nat)
    requires j < |actions| && EndsWith(value, Suffixed(actions[j])) && |value| > |Suffixed(actions[j])|
    ensures var split := SplitAction(value, actions);
            split.Some? && exists i :: 0 <= i <= j && split.value.1 == actions[i]
  {
    var suffix := Suffixed(actions[0]);
    if !(EndsWith(value, suffix) && |value| > |suffix|) {
      EarlierMatch(value, actions[1..], j - 1);
      var i :| 0 <= i <= j - 1 && SplitAction(value, actions[1..]).value.1 == actions[1..][i];
      assert actions[i + 1] == actions[1..][i];
    }
  }

  /** A listed action is recovered from every resource exactly when no action
      before it overlaps it. */
  lemma ActionRecoveredExactly(actions: seq<string>, k: nat)
    requires k < |actions| && forall j :: 0 <= j < k ==> actions[j] != actions[k]
    ensures (forall resource :: resource != "" ==>
               SplitAction(resource + Suffixed(actions[k]), actions) == Some((resource, actions[k])))
            <==> forall j :: 0 <= j < k ==> !Overlaps(actions[j], actions[k])
  {
    if j :| 0 <= j < k && Overlaps(actions[j], actions[k]) {
      OverlapMisleads(actions, j, k);
    } else {
      forall resource | resource != ""
        ensures SplitAction(resource + Suffixed(actions[k]), actions) == Some((resource, actions[k]))
      {
        var value := resource + Suffixed(actions[k]);
        assert EndsWith(value, Suffixed(actions[k]));
        forall j | 0 <= j < k ensures !EndsWith(value, Suffixed(actions[j])) {
          if EndsWith(value, Suffixed(actions[j])) { SuffixesOverlap(value, actions[j], actions[k]); }
        }
        FirstMatch(value, actions, k, resource);
      }
    }
  }

  /** A resource before `b` for which the value also ends in `a`. */
  function Misleading(a: string, b: string): (resource: string)
    requires Overlaps(a, b)
    ensures resource != ""
  {
    if |a| <= |b| then "r" else "r" + Suffixed(a)[..|a| - |b|]
  }

  lemma MisleadingEnds(a: string, b: string)
    requires Overlaps(a, b)
    ensures EndsWith(Misleading(a, b) + Suffixed(b), Suffixed(a))
    ensures |Misleading(a, b) + Suffixed(b)| > |Suffixed(a)|
  {
    var x, y := Suffixed(a), Suffixed(b);
    var value := Misleading(a, b) + y;
    if |a| <= |b| { assert value[|value| - |x|..] == y[|y| - |x|..]; } else { assert value == "r" + x; }
  }

  lemma OverlapMisleads(actions: seq<string>, j: nat, k: nat)
    requires j < k < |actions| && (forall i :: 0 <= i < k ==> actions[i] != actions[k])
             && Overlaps(actions[j], actions[k])
    ensures exists resource ::
              resource != "" && SplitAction(resource + Suffixed(actions[k]), actions) != Some((resource, actions[k]))
  {
    var resource := Misleading(actions[j], actions[k]);
    MisleadingEnds(actions[j], actions[k]);
    EarlierMatch(resource + Suffixed(actions[k]), actions, j);
  }

  lemma TailHasColon(a: string, b: string)
    ensures EndsWith(Suffixed(a), Suffixed(b)) ==> a == b || ':' in a
  {
    var x, y := Suffixed(a), Suffixed(b);
    if EndsWith(x, y) {
      if |x| > |y| {
        assert x[|x| - |y|] == y[0] == ':';
        assert a[|x| - |y| - 1] == x[|x| - |y|];
      } else {
        assert a == x[1..] && b == y[1..];
      }
    }
  }

  /** Lists without colons never overlap, so they recover every resource, also one
      that itself contains colons. */
  lemma ColonFreeNeverOverlaps(a: string, b: string)
    requires ':' !in a && ':' !in b && a != b
    ensures !Overlaps(a, b)
  {
    TailHasColon(a, b);
    TailHasColon(b, a);
  }
}
