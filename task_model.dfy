/** The messages that flow through the worker: the inbound `VideoTask`, the outbound
    `DBUpload` completion event, and the UUIDs that name videos and processing runs. */
module TaskModel {

  newtype byte = x: int | 0 <= x < 256

  newtype int64 = x: int | -0x8000_0000_0000_0000 <= x < 0x8000_0000_0000_0000

  /** A `uuid.UUID`: sixteen bytes. */
  type Uuid = b: seq<byte> | |b| == 16 witness [0, 0, 0, 0, 0, 0, 0, 0, 0, 0, 0, 0, 0, 0, 0, 0]

  /** The inbound task message. */
  datatype VideoTask = VideoTask(videoId: Uuid, userId: int64, videoTitle: string)

  /** The outbound completion event (its fields as the consumer fills them in). */
  datatype DBUpload = DBUpload(videoId: Uuid, userId: int64, videoTitle: string, url: string)

  predicate IsHexDigit(c: char)
  {
    '0' <= c <= '9' || 'a' <= c <= 'f'
  }

  function HexDigit(d: int): (c: char)
    requires 0 <= d < 16
    ensures IsHexDigit(c)
  {
    if d < 10 then ('0' as int + d) as char else ('a' as int + d - 10) as char
  }

  /** Two lower-case hex digits per byte. */
  function Hex(bs: seq<byte>): (s: string)
    ensures |s| == 2 * |bs|
    ensures forall i :: 0 <= i < |s| ==> IsHexDigit(s[i])
  {
    if bs == [] then "" else [HexDigit(bs[0] as int / 16), HexDigit(bs[0] as int % 16)] + Hex(bs[1..])
  }

  /** `uuid.UUID.String()`: the canonical 8-4-4-4-12 form. */
  function UuidString(u: Uuid): (s: string)
  {
    Hex(u[..4]) + "-" + Hex(u[4..6]) + "-" + Hex(u[6..8]) + "-" + Hex(u[8..10]) + "-" + Hex(u[10..])
  }

  /** The canonical form has 36 characters, dashes at fixed places and hex digits
      elsewhere; in particular it never contains a `/`, so it is a single path segment. */
  lemma UuidStringShape(u: Uuid)
    ensures |UuidString(u)| == 36
    ensures forall i :: 0 <= i < 36 ==>
      if i in {8, 13, 18, 23} then UuidString(u)[i] == '-' else IsHexDigit(UuidString(u)[i])
    ensures '/' !in UuidString(u)
  {
    var s := UuidString(u);
    var a, b, c, d, e := Hex(u[..4]), Hex(u[4..6]), Hex(u[6..8]), Hex(u[8..10]), Hex(u[10..]);
    assert s == a + "-" + b + "-" + c + "-" + d + "-" + e;
    forall i | 0 <= i < 36
      ensures if i in {8, 13, 18, 23} then s[i] == '-' else IsHexDigit(s[i])
    {
      if i < 8 { assert s[i] == a[i]; }
      else if i == 8 { }
      else if i < 13 { assert s[i] == b[i - 9]; }
      else if i == 13 { }
      else if i < 18 { assert s[i] == c[i - 14]; }
      else if i == 18 { }
      else if i < 23 { assert s[i] == d[i - 19]; }
      else if i == 23 { }
      else { assert s[i] == e[i - 24]; }
    }
    assert forall i :: 0 <= i < |s| ==> s[i] != '/';
  }
}
