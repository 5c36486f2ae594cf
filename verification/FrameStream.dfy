/** The video frame stream between the native process and its parent: each
    frame is preceded by its length in four little-endian bytes. */
module FrameStream {
  import opened Wrappers

  /** A slice on the 32-bit device is shorter than 2^31 bytes. */
  type Frame = f: seq<Byte> | |f| < 0x8000_0000 witness []

  const MAX_FRAME_SIZE: nat := 1920 * 1080 / 2

  function PutUint32(n: int): (s: seq<Byte>)
    requires 0 <= n < 0x1_0000_0000
    ensures |s| == 4
  {
    [n % 256, n / 256 % 256, n / 65536 % 256, n / 16777216]
  }

  function Uint32(s: seq<Byte>): (n: int)
    requires |s| == 4
    ensures 0 <= n < 0x1_0000_0000
  {
    var a: int, b: int, c: int, d: int := s[0], s[1], s[2], s[3];
    a + 256 * b + 65536 * c + 16777216 * d
  }

  lemma Uint32RoundTrip(n: int)
    requires 0 <= n < 0x1_0000_0000
    ensures Uint32(PutUint32(n)) == n
  {
    var a, b, c := n / 256, n / 65536, n / 16777216;
    assert b == a / 256 && c == b / 256;
    assert n == 256 * a + n % 256 && a == 256 * b + a % 256 && b == 256 * c + b % 256;
  }

  predicate IsValidSize(n: int) {
    0 < n <= MAX_FRAME_SIZE
  }

  /** Everything the frame callback writes for some frames. */
  function Written(fs: seq<Frame>): seq<Byte> {
    if fs == [] then [] else PutUint32(|fs[0]|) + fs[0] + Written(fs[1..])
  }

  /** The frames a reader takes from a stream until it ends, is cut off, or
      announces an impossible size. */
  function Parsed(s: seq<Byte>): seq<seq<Byte>>
    decreases |s|
  {
    if |s| < 4 then []
    else
      var n := Uint32(s[..4]);
      if !IsValidSize(n) || |s| < 4 + n then []
      else [s[4..4 + n]] + Parsed(s[4 + n..])
  }

  method WriteFrames(fs: seq<Frame>) returns (out: seq<Byte>)
    ensures out == Written(fs)
  {
    out := [];
    for i := 0 to |fs|
      invariant out + Written(fs[i..]) == Written(fs)
    {
      assert fs[i..][1..] == fs[i + 1..];
      var frame := fs[i];
      var prefix := PutUint32(|frame|);
      assert out + Written(fs[i..]) == out + prefix + frame + Written(fs[i + 1..]);
      out := out + prefix;
      out := out + frame;
    }
  }

  /** The reading loop with its one reused buffer; each frame is what the
      buffer holds when the callback is made. */
  method HandleVideoFrames(conn: seq<Byte>) returns (frames: seq<seq<Byte>>)
    ensures frames == Parsed(conn)
  {
    hide Parsed, Uint32;
    var inboundPacket := new Byte[MAX_FRAME_SIZE];
    frames := [];
    var pos := 0;
    assert conn[0..] == conn;
    while true
      invariant 0 <= pos <= |conn| && frames + Parsed(conn[pos..]) == Parsed(conn)
      decreases |conn| - pos
    {
      ParseStep(conn, pos);
      if |conn| - pos < 4 {
        break;
      }
      var frameSize := Uint32(conn[pos..pos + 4]);
      if frameSize == 0 || frameSize > MAX_FRAME_SIZE {
        break;
      }
      if |conn| - pos - 4 < frameSize {
        break;
      }
      forall i | 0 <= i < frameSize {
        inboundPacket[i] := conn[pos + 4 + i];
      }
      assert inboundPacket[..frameSize] == conn[pos + 4..pos + 4 + frameSize];
      frames := frames + [inboundPacket[..frameSize]];
      pos := pos + 4 + frameSize;
    }
  }

  lemma ParseStep(s: seq<Byte>, pos: nat)
    requires pos <= |s|
    ensures Parsed(s[pos..]) ==
            if |s| - pos < 4 then []
            else
              var n := Uint32(s[pos..pos + 4]);
              if !IsValidSize(n) || |s| - pos < 4 + n then []
              else [s[pos + 4..pos + 4 + n]] + Parsed(s[pos + 4 + n..])
  {
    hide Uint32;
    var rest := s[pos..];
    if |rest| >= 4 {
      assert s[pos..pos + 4] == rest[..4];
      var n := Uint32(rest[..4]);
      if IsValidSize(n) && |rest| >= 4 + n {
        assert rest[4..4 + n] == s[pos + 4..pos + 4 + n] && rest[4 + n..] == s[pos + 4 + n..];
      }
    }
  }

  /** The frames that lie wholly within the first `k` bytes, up to the first
      one the reader refuses. */
  function Whole(fs: seq<Frame>, k: int): (r: seq<Frame>)
    ensures r <= fs
  {
    if fs == [] || !IsValidSize(|fs[0]|) || k < 4 + |fs[0]| then []
    else [fs[0]] + Whole(fs[1..], k - 4 - |fs[0]|)
  }

  lemma CutAfter(prefix: seq<Byte>, frame: seq<Byte>, rest: seq<Byte>, k: nat)
    requires |prefix| == 4 && 4 + |frame| <= k <= |prefix + frame + rest|
    ensures var s := (prefix + frame + rest)[..k]; s[4..4 + |frame|] == frame && s[4 + |frame|..] == rest[..k - 4 - |frame|]
  {
  }

  /** A stream cut off anywhere yields exactly the frames that were whole. */
  lemma {:induction false} CutStream(fs: seq<Frame>, k: nat)
    requires k <= |Written(fs)|
    ensures Parsed(Written(fs)[..k]) == Whole(fs, k)
  {
    if fs != [] {
      var prefix, rest := PutUint32(|fs[0]|), Written(fs[1..]);
      var s := Written(fs)[..k];
      Uint32RoundTrip(|fs[0]|);
      hide Uint32, PutUint32, IsValidSize;
      if k >= 4 {
        assert s[..4] == prefix;
        if IsValidSize(|fs[0]|) && k >= 4 + |fs[0]| {
          CutStream(fs[1..], k - 4 - |fs[0]|);
          CutAfter(prefix, fs[0], rest, k);
        }
      }
    }
  }

  lemma {:induction false} WholeIsAll(fs: seq<Frame>)
    ensures Whole(fs, |Written(fs)|) == fs <==> forall i :: 0 <= i < |fs| ==> IsValidSize(|fs[i]|)
  {
    if fs != [] {
      WholeIsAll(fs[1..]);
      var all := Written(fs);
      assert |all| - 4 - |fs[0]| == |Written(fs[1..])|;
      assert fs == [fs[0]] + fs[1..];
      assert forall i :: 0 < i < |fs| ==> fs[i] == fs[1..][i - 1];
    }
  }

  /** Reading back what was written gives the same frames exactly when every
      one has a size the reader accepts. */
  lemma RoundTrip(fs: seq<Frame>)
    ensures Parsed(Written(fs)) == fs <==> forall i :: 0 <= i < |fs| ==> 1 <= |fs[i]| <= 1920 * 1080 / 2
  {
    var s := Written(fs);
    assert s[..|s|] == s;
    CutStream(fs, |s|);
    WholeIsAll(fs);
  }

  function Pow256(i: nat): (p: int)
    ensures p > 0
  {
    if i == 0 then 1 else 256 * Pow256(i - 1)
  }

  /** The low byte comes first. */
  lemma LittleEndian(n: int, i: nat)
    requires 0 <= n < 0x1_0000_0000 && i < 4
    ensures PutUint32(n)[i] as int == n / Pow256(i) % 256
  {
    assert Pow256(1) == 256 && Pow256(2) == 65536 && Pow256(3) == 16777216;
  }
}
