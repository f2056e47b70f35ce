/**
 The handshake codec of pkg/tunnel/handshake.go: a session ID becomes 16 bytes, the 16 bytes become a
 24-byte frame, and the hub validates the first frame of a tunnel against the ID it expects.

 A Go string is a sequence of bytes; here each char of a string stands for one byte. The SHA-256 digest
 is an arbitrary function, passed as a parameter.
*/
module Handshake {
  import opened Options

  type byte = x: int | 0 <= x < 256
  type Digest = d: seq<byte> | |d| == 32 witness seq(32, _ => 0)
  type Hash = string -> Digest

  const MAGIC_SIZE := 8
  const SID_SIZE := 16
  const FRAME_SIZE := MAGIC_SIZE + SID_SIZE
  const MAGIC: seq<byte> := [83, 83, 72, 79, 76, 69, 48, 49]  // "SSHOLE01"

  // ---------- Base16 (section 8 of RFC 4648), as encoding/hex reads and writes it ----------

  function HexValue(c: char): Option<int> {
    if '0' <= c <= '9' then Some(c as int - '0' as int)
    else if 'a' <= c <= 'f' then Some(c as int - 'a' as int + 10)
    else if 'A' <= c <= 'F' then Some(c as int - 'A' as int + 10)
    else None
  }

  function HexDigit(v: int): char
    requires 0 <= v < 16
  {
    if v < 10 then ('0' as int + v) as char else ('a' as int + v - 10) as char
  }

  predicate IsHex(s: string) {
    forall i :: 0 <= i < |s| ==> HexValue(s[i]).Some?
  }

  function DecodeHex(s: string): Option<seq<byte>> {
    if s == "" then Some([])
    else if |s| == 1 then None
    else
      match (HexValue(s[0]), HexValue(s[1]), DecodeHex(s[2..]))
      case (Some(hi), Some(lo), Some(rest)) => Some([16 * hi + lo] + rest)
      case _ => None
  }

  function EncodeHex(b: seq<byte>): string {
    if b == [] then "" else [HexDigit(b[0] / 16), HexDigit(b[0] % 16)] + EncodeHex(b[1..])
  }

  function LowerChar(c: char): char {
    if 'A' <= c <= 'Z' then (c as int + 32) as char else c
  }

  function Lower(s: string): (r: string)
    ensures |r| == |s|
    ensures forall i :: 0 <= i < |s| ==> r[i] == LowerChar(s[i])
  {
    if s == "" then "" else [LowerChar(s[0])] + Lower(s[1..])
  }

  lemma IsHexSplit(s: string)
    requires |s| >= 2
    ensures IsHex(s) <==> HexValue(s[0]).Some? && HexValue(s[1]).Some? && IsHex(s[2..])
  {
    assert s == [s[0], s[1]] + s[2..];
  }

  lemma {:induction false} DecodeDefined(s: string)
    ensures DecodeHex(s).Some? <==> |s| % 2 == 0 && IsHex(s)
    ensures DecodeHex(s).Some? ==> |DecodeHex(s).value| * 2 == |s|
  {
    if |s| >= 2 {
      DecodeDefined(s[2..]);
      IsHexSplit(s);
      assert |s[2..]| == |s| - 2;
    }
  }

  lemma {:induction false} EncodeLength(b: seq<byte>)
    ensures |EncodeHex(b)| == 2 * |b|
  {
    if b != [] { EncodeLength(b[1..]); }
  }

  lemma DigitValue(v: int)
    requires 0 <= v < 16
    ensures HexValue(HexDigit(v)) == Some(v)
  {
  }

  // Writing bytes as hex and reading them back is the identity.
  lemma {:induction false} DecodeEncode(b: seq<byte>)
    ensures DecodeHex(EncodeHex(b)) == Some(b)
  {
    if b != [] {
      DecodeEncode(b[1..]);
      var s := EncodeHex(b);
      assert s[0] == HexDigit(b[0] / 16) && s[1] == HexDigit(b[0] % 16) && s[2..] == EncodeHex(b[1..]);
      DigitValue(b[0] / 16);
      DigitValue(b[0] % 16);
      assert DecodeHex(s) == Some([b[0]] + b[1..]);
      assert [b[0]] + b[1..] == b;
    }
  }

  // Reading hex and writing it back only changes the letter case.
  lemma {:induction false} EncodeDecode(s: string)
    requires DecodeHex(s).Some?
    ensures EncodeHex(DecodeHex(s).value) == Lower(s)
  {
    if s != "" {
      EncodeDecode(s[2..]);
      var b := DecodeHex(s).value;
      assert b[1..] == DecodeHex(s[2..]).value;
      assert Lower(s) == [LowerChar(s[0]), LowerChar(s[1])] + Lower(s[2..]);
    }
  }

  lemma {:induction false} DecodeLower(s: string)
    ensures IsHex(s) ==> DecodeHex(Lower(s)) == DecodeHex(s)
  {
    if |s| >= 2 && IsHex(s) {
      assert IsHex(s[2..]);
      DecodeLower(s[2..]);
      assert Lower(s)[2..] == Lower(s[2..]);
      assert HexValue(s[0]).Some? && HexValue(s[1]).Some?;
    } else if |s| == 1 {
    }
  }

  // ---------- Session ID to 16 bytes ----------

  function StripDashes(s: string): (r: string)
    ensures |r| <= |s|
    ensures forall i :: 0 <= i < |r| ==> r[i] != '-'
  {
    if s == "" then ""
    else if s[0] == '-' then StripDashes(s[1..])
    else [s[0]] + StripDashes(s[1..])
  }

  function SessionBytes(sha: Hash, id: string): (r: seq<byte>)
    ensures |r| == SID_SIZE
  {
    if |id| == 32 && DecodeHex(id).Some? && |DecodeHex(id).value| == SID_SIZE then DecodeHex(id).value
    else
      var clean := StripDashes(id);
      if |clean| == 32 && DecodeHex(clean).Some? && |DecodeHex(clean).value| == SID_SIZE then DecodeHex(clean).value
      else sha(id)[..SID_SIZE]
  }

  // An ID whose dash-free form is 32 hex digits, in either case.
  predicate UuidLike(id: string) {
    |StripDashes(id)| == 32 && IsHex(StripDashes(id))
  }

  lemma {:induction false} StripAppend(a: string, b: string)
    ensures StripDashes(a + b) == StripDashes(a) + StripDashes(b)
  {
    if a == "" {
      assert a + b == b;
    } else {
      assert (a + b)[1..] == a[1..] + b;
      StripAppend(a[1..], b);
    }
  }

  lemma {:induction false} StripNothing(s: string)
    requires IsHex(s)
    ensures StripDashes(s) == s
  {
    if s != "" {
      assert HexValue(s[0]).Some?;
      assert IsHex(s[1..]);
      StripNothing(s[1..]);
    }
  }

  // The undashed fast path and the strip-then-decode path agree on every input.
  lemma FastPathRedundant(sha: Hash, id: string)
    ensures UuidLike(id) ==> DecodeHex(StripDashes(id)) == Some(SessionBytes(sha, id))
    ensures !UuidLike(id) ==> SessionBytes(sha, id) == sha(id)[..SID_SIZE]
  {
    DecodeDefined(id);
    DecodeDefined(StripDashes(id));
    if |id| == 32 && IsHex(id) {
      StripNothing(id);
    }
  }

  // Two UUID-like IDs name the same 16 bytes exactly when they agree up to dashes and letter case.
  lemma SameBytesIff(sha: Hash, a: string, b: string)
    requires UuidLike(a) && UuidLike(b)
    ensures SessionBytes(sha, a) == SessionBytes(sha, b) <==> Lower(StripDashes(a)) == Lower(StripDashes(b))
  {
    FastPathRedundant(sha, a);
    FastPathRedundant(sha, b);
    EncodeDecode(StripDashes(a));
    EncodeDecode(StripDashes(b));
    DecodeLower(StripDashes(a));
    DecodeLower(StripDashes(b));
  }

  // ---------- Canonical UUID text (section 4 of RFC 9562) and the header-less path ----------

  predicate DashAt(i: int) {
    i == 8 || i == 13 || i == 18 || i == 23
  }

  predicate IsUuid(s: string) {
    |s| == 36 && forall i :: 0 <= i < 36 ==>
      if DashAt(i) then s[i] == '-' else HexValue(s[i]).Some? && LowerChar(s[i]) == s[i]
  }

  function Hyphenated(h: string): string
    requires |h| == 32
  {
    h[..8] + "-" + h[8..12] + "-" + h[12..16] + "-" + h[16..20] + "-" + h[20..]
  }

  function UuidText(b: seq<byte>): string
    requires |b| == SID_SIZE
  {
    EncodeLength(b);
    Hyphenated(EncodeHex(b))
  }

  // The dash-free form of a canonical UUID.
  function Compact(s: string): (r: string)
    requires |s| == 36
    ensures |r| == 32
  {
    s[..8] + s[9..13] + s[14..18] + s[19..23] + s[24..]
  }

  lemma CompactIsHex(s: string)
    requires IsUuid(s)
    ensures IsHex(Compact(s)) && Lower(Compact(s)) == Compact(s)
  {
    var c := Compact(s);
    forall i | 0 <= i < 32 ensures HexValue(c[i]).Some? && LowerChar(c[i]) == c[i] {
      var j := if i < 8 then i else if i < 12 then i + 1 else if i < 16 then i + 2 else if i < 20 then i + 3 else i + 4;
      assert c[i] == s[j] && !DashAt(j);
    }
  }

  lemma StripSegment(p: string, rest: string)
    requires IsHex(p)
    ensures StripDashes(p + ("-" + rest)) == p + StripDashes(rest)
  {
    StripNothing(p);
    StripAppend(p, "-" + rest);
    assert ("-" + rest)[1..] == rest;
  }

  lemma SegmentIsHex(s: string, lo: nat, hi: nat)
    requires IsUuid(s) && lo <= hi <= 36
    requires forall i :: lo <= i < hi ==> !DashAt(i)
    ensures IsHex(s[lo..hi])
  {
  }

  lemma StripFive(p0: string, p1: string, p2: string, p3: string, p4: string)
    requires IsHex(p0) && IsHex(p1) && IsHex(p2) && IsHex(p3) && IsHex(p4)
    ensures StripDashes(p0 + ("-" + (p1 + ("-" + (p2 + ("-" + (p3 + ("-" + p4)))))))) == p0 + (p1 + (p2 + (p3 + p4)))
  {
    StripNothing(p4);
    StripSegment(p3, p4);
    StripSegment(p2, p3 + ("-" + p4));
    StripSegment(p1, p2 + ("-" + (p3 + ("-" + p4))));
    StripSegment(p0, p1 + ("-" + (p2 + ("-" + (p3 + ("-" + p4))))));
  }

  lemma UuidPartsAreHex(s: string)
    requires IsUuid(s)
    ensures IsHex(s[..8]) && IsHex(s[9..13]) && IsHex(s[14..18]) && IsHex(s[19..23]) && IsHex(s[24..])
  {
    SegmentIsHex(s, 0, 8);
    SegmentIsHex(s, 9, 13);
    SegmentIsHex(s, 14, 18);
    SegmentIsHex(s, 19, 23);
    SegmentIsHex(s, 24, 36);
    assert s[24..36] == s[24..] && s[0..8] == s[..8];
  }

  lemma StripUuid(s: string)
    requires IsUuid(s)
    ensures StripDashes(s) == Compact(s)
    ensures UuidLike(s)
  {
    CompactIsHex(s);
    var c := Compact(s);
    assert StripDashes(s) == c by {
      UuidPartsAreHex(s);
      UuidSegments(s);
      StripFive(s[..8], s[9..13], s[14..18], s[19..23], s[24..]);
      CompactParts(s);
    }
  }

  lemma CompactParts(s: string)
    requires |s| == 36
    ensures Compact(s) == s[..8] + (s[9..13] + (s[14..18] + (s[19..23] + s[24..])))
  {
  }

  lemma UuidSegments(s: string)
    requires IsUuid(s)
    ensures s == s[..8] + ("-" + (s[9..13] + ("-" + (s[14..18] + ("-" + (s[19..23] + ("-" + s[24..])))))))
  {
    assert DashAt(8) && DashAt(13) && DashAt(18) && DashAt(23);
    assert s[8..9] == "-" && s[13..14] == "-" && s[18..19] == "-" && s[23..24] == "-";
  }

  lemma {:induction false} EncodeIsLowerHex(b: seq<byte>)
    ensures forall i :: 0 <= i < |EncodeHex(b)| ==>
              HexValue(EncodeHex(b)[i]).Some? && LowerChar(EncodeHex(b)[i]) == EncodeHex(b)[i]
  {
    if b != [] {
      EncodeIsLowerHex(b[1..]);
    }
  }

  lemma HyphenatedChars(h: string)
    requires |h| == 32
    ensures var t := Hyphenated(h);
            && |t| == 36 && t[8] == t[13] == t[18] == t[23] == '-'
            && (forall i :: 0 <= i < 8 ==> t[i] == h[i])
            && (forall i :: 9 <= i < 13 ==> t[i] == h[i - 1])
            && (forall i :: 14 <= i < 18 ==> t[i] == h[i - 2])
            && (forall i :: 19 <= i < 23 ==> t[i] == h[i - 3])
            && (forall i :: 24 <= i < 36 ==> t[i] == h[i - 4])
  {
    var a := h[..8] + "-" + h[8..12] + "-";
    var b := a + h[12..16] + "-";
    assert Hyphenated(h) == b + h[16..20] + "-" + h[20..];
  }

  lemma HyphenatedIsUuid(h: string)
    requires |h| == 32 && forall i :: 0 <= i < 32 ==> HexValue(h[i]).Some? && LowerChar(h[i]) == h[i]
    ensures IsUuid(Hyphenated(h))
  {
    HyphenatedChars(h);
    hide Hyphenated, HexValue, LowerChar;
  }

  lemma CompactHyphenated(h: string)
    requires |h| == 32 && IsUuid(Hyphenated(h))
    ensures Compact(Hyphenated(h)) == h
  {
    HyphenatedChars(h);
    var t := Hyphenated(h);
    hide Hyphenated, IsUuid;
    assert t[..8] == h[..8] && t[9..13] == h[8..12] && t[14..18] == h[12..16];
    assert t[19..23] == h[16..20] && t[24..] == h[20..];
    assert h == h[..8] + (h[8..12] + (h[12..16] + (h[16..20] + h[20..])));
  }

  // uuid.String writes canonical text, and the bytes of that text are the UUID's own 16 bytes.
  lemma UuidRoundTrip(sha: Hash, b: seq<byte>)
    requires |b| == SID_SIZE
    ensures IsUuid(UuidText(b))
    ensures SessionBytes(sha, UuidText(b)) == b
  {
    EncodeLength(b);
    EncodeIsLowerHex(b);
    var t := UuidText(b);
    HyphenatedIsUuid(EncodeHex(b));
    StripUuid(t);
    CompactHyphenated(EncodeHex(b));
    DecodeEncode(b);
    FastPathRedundant(sha, t);
  }

  // Every canonical text is the text of exactly one UUID.
  lemma UuidTextOnto(sha: Hash, s: string)
    requires IsUuid(s)
    ensures UuidText(SessionBytes(sha, s)) == s
  {
    StripUuid(s);
    CompactIsHex(s);
    FastPathRedundant(sha, s);
    EncodeDecode(Compact(s));
    var h := Compact(s);
    assert EncodeHex(SessionBytes(sha, s)) == h;
    hide SessionBytes, EncodeHex;
    DashedIsText(s);
  }

  lemma DashedIsText(s: string)
    requires IsUuid(s)
    ensures Hyphenated(Compact(s)) == s
  {
    var h := Compact(s);
    assert s[8] == '-' && s[13] == '-' && s[18] == '-' && s[23] == '-';
    assert h[..8] == s[..8] && h[8..12] == s[9..13] && h[12..16] == s[14..18];
    assert h[16..20] == s[19..23] && h[20..] == s[24..];
    assert s == s[..8] + "-" + s[9..13] + "-" + s[14..18] + "-" + s[19..23] + "-" + s[24..];
  }

  // The ID a header-less tunnel request gets from its frame: fmt's %x of the 16 session bytes.
  lemma HeaderlessId(sha: Hash, b: seq<byte>)
    requires |b| == SID_SIZE
    ensures |EncodeHex(b)| == 32
    ensures !IsUuid(EncodeHex(b))
    ensures SessionBytes(sha, EncodeHex(b)) == b
  {
    EncodeLength(b);
    DecodeEncode(b);
  }

  // ---------- The frame ----------

  function Frame(sha: Hash, id: string): (r: seq<byte>)
    ensures |r| == FRAME_SIZE
  {
    MAGIC + SessionBytes(sha, id)
  }

  datatype HandshakeError = InvalidSize(size: int) | InvalidMagic | SessionMismatch

  method StripDashesLoop(id: string) returns (clean: string)
    ensures clean == StripDashes(id)
  {
    clean := "";
    assert id[..0] == "";
    for i := 0 to |id|
      invariant clean == StripDashes(id[..i])
    {
      assert id[..i + 1] == id[..i] + [id[i]];
      StripAppend(id[..i], [id[i]]);
      if id[i] != '-' {
        clean := clean + [id[i]];
      }
    }
    assert id[..|id|] == id;
  }

  // copy(dst[at:], src)
  method CopyInto(dst: array<byte>, at: nat, src: seq<byte>)
    requires at + |src| <= dst.Length
    modifies dst
    ensures dst[..] == old(dst[..at]) + src + old(dst[at + |src|..])
  {
    for i := 0 to |src|
      invariant dst[..] == old(dst[..at]) + src[..i] + old(dst[at + i..])
    {
      ghost var before := dst[..];
      dst[at + i] := src[i];
      assert dst[..] == before[at + i := src[i]];
    }
  }

  method SessionIDTo16Bytes(sha: Hash, id: string) returns (out: array<byte>)
    ensures fresh(out) && out[..] == SessionBytes(sha, id)
  {
    out := new byte[16](_ => 0);
    if |id| == 32 {
      var b := DecodeHex(id);
      if b.Some? && |b.value| == 16 {
        CopyInto(out, 0, b.value);
        return;
      }
    }
    var clean := StripDashesLoop(id);
    if |clean| == 32 {
      var b := DecodeHex(clean);
      if b.Some? && |b.value| == 16 {
        CopyInto(out, 0, b.value);
        return;
      }
    }
    CopyInto(out, 0, sha(id)[..SID_SIZE]);
  }

  method BuildHandshake(sha: Hash, id: string) returns (buf: array<byte>)
    ensures fresh(buf) && buf[..] == Frame(sha, id)
  {
    var session := SessionIDTo16Bytes(sha, id);
    buf := new byte[FRAME_SIZE](_ => 0);
    CopyInto(buf, 0, MAGIC);
    CopyInto(buf, MAGIC_SIZE, session[..]);
  }

  method EqualBytes(a: seq<byte>, b: seq<byte>) returns (eq: bool)
    ensures eq <==> a == b
  {
    if |a| != |b| {
      return false;
    }
    for i := 0 to |a|
      invariant a[..i] == b[..i]
    {
      if a[i] != b[i] {
        return false;
      }
    }
    assert a[..|a|] == a && b[..|b|] == b;
    return true;
  }

  // A frame is accepted for an ID exactly when it is, byte for byte, the frame built from that ID; the
  // error says which of size, magic and session is the first to disagree.
  method ValidateHandshake(sha: Hash, data: seq<byte>, id: string) returns (r: Result<(), HandshakeError>)
    ensures r.Success? <==> data == Frame(sha, id)
    ensures r == Failure(InvalidSize(|data|)) <==> |data| != FRAME_SIZE
    ensures r == Failure(InvalidMagic) <==> |data| == FRAME_SIZE && !(MAGIC <= data)
    ensures r == Failure(SessionMismatch) <==>
              |data| == FRAME_SIZE && MAGIC <= data && data[8..] != SessionBytes(sha, id)
  {
    if |data| != FRAME_SIZE {
      return Failure(InvalidSize(|data|));
    }
    assert data == data[..MAGIC_SIZE] + data[MAGIC_SIZE..];
    var magic := EqualBytes(data[..MAGIC_SIZE], MAGIC);
    if !magic {
      return Failure(InvalidMagic);
    }
    var expected := SessionIDTo16Bytes(sha, id);
    var same := EqualBytes(data[MAGIC_SIZE..], expected[..]);
    if !same {
      return Failure(SessionMismatch);
    }
    return Success(());
  }

  // One ID's frame passes for another ID exactly when the two IDs name the same 16 bytes.
  lemma FrameCross(sha: Hash, a: string, b: string)
    ensures Frame(sha, a) == Frame(sha, b) <==> SessionBytes(sha, a) == SessionBytes(sha, b)
  {
    assert Frame(sha, a)[MAGIC_SIZE..] == SessionBytes(sha, a);
    assert Frame(sha, b)[MAGIC_SIZE..] == SessionBytes(sha, b);
  }

  // Two IDs that the hub generates share a frame only if they are the same ID.
  lemma UuidFramesDistinct(sha: Hash, a: string, b: string)
    requires IsUuid(a) && IsUuid(b)
    ensures Frame(sha, a) == Frame(sha, b) <==> a == b
  {
    FrameCross(sha, a, b);
    UuidTextOnto(sha, a);
    UuidTextOnto(sha, b);
  }
}
