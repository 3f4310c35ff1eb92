/** What `sendPacket` keeps of the bytes the valve sends back: it drops
    bytes until the first start byte, then takes that byte and the seven
    after it as the reply. */
module Response {
  import opened Wire
  import opened Frame

  /** The index of the first start byte of `s`, if it has one. */
  function FirstStart(s: seq<byte>): (r: Option<nat>)
    ensures r.Some? ==> r.value < |s| && s[r.value] == STX
    ensures r.Some? ==> forall j :: 0 <= j < r.value ==> s[j] != STX
    ensures r.None? ==> forall j :: 0 <= j < |s| ==> s[j] != STX
  {
    if |s| == 0 then None
    else if s[0] == STX then Some(0)
    else match FirstStart(s[1..])
      case None => None
      case Some(i) => Some(i + 1)
  }

  /** The stream holds a start byte followed by at least seven more bytes,
      which is what the read loop needs in order to finish. */
  predicate CanCapture(s: seq<byte>): (b: bool)
    ensures b <==> exists i :: 0 <= i && i + FRAME_SIZE <= |s| && s[i] == STX &&
                               (forall j :: 0 <= j < i ==> s[j] != STX)
  {
    FirstStart(s).Some? && FirstStart(s).value + FRAME_SIZE <= |s|
  }

  /** How many bytes of `s` the read loop consumes. */
  function Consumed(s: seq<byte>): (n: nat)
    requires CanCapture(s)
    ensures FRAME_SIZE <= n <= |s| && s[n - FRAME_SIZE] == STX
  {
    FirstStart(s).value + FRAME_SIZE
  }

  /** The reply the read loop leaves in `message`. */
  function Captured(s: seq<byte>): (reply: seq<byte>)
    requires CanCapture(s)
    ensures |reply| == FRAME_SIZE && reply[0] == STX
  {
    s[Consumed(s) - FRAME_SIZE .. Consumed(s)]
  }

  /** The bytes still waiting on the line after the reply. */
  function Remaining(s: seq<byte>): (rest: seq<byte>)
    requires CanCapture(s)
    ensures s[..Consumed(s)] + rest == s
  {
    s[Consumed(s)..]
  }

  /** A stream is stray bytes with no start byte among them, then a reply
      that begins with the start byte, then anything: the loop discards the
      stray bytes, captures exactly that reply even when a later byte of it
      is itself a start byte, and leaves the rest on the line. */
  lemma {:induction false} CaptureAfterStrayBytes(stray: seq<byte>, reply: seq<byte>, tail: seq<byte>)
    requires forall j :: 0 <= j < |stray| ==> stray[j] != STX
    requires |reply| == FRAME_SIZE && reply[0] == STX
    ensures CanCapture(stray + reply + tail)
    ensures Captured(stray + reply + tail) == reply
    ensures Remaining(stray + reply + tail) == tail
  {
    var s := stray + reply + tail;
    StartAfterStrayBytes(stray, reply + tail);
    assert s == stray + (reply + tail);
    assert FirstStart(s) == Some(|stray|);
    assert s[|stray| .. |stray| + FRAME_SIZE] == reply;
    assert s[|stray| + FRAME_SIZE ..] == tail;
  }

  /** The first start byte after a run of stray bytes is the first byte
      following them, if that is a start byte. */
  lemma {:induction false} StartAfterStrayBytes(stray: seq<byte>, rest: seq<byte>)
    requires forall j :: 0 <= j < |stray| ==> stray[j] != STX
    requires |rest| > 0 && rest[0] == STX
    ensures FirstStart(stray + rest) == Some(|stray|)
  {
    if |stray| > 0 {
      assert (stray + rest)[1..] == stray[1..] + rest;
      StartAfterStrayBytes(stray[1..], rest);
    } else {
      assert stray + rest == rest;
    }
  }

  /** Conversely, every stream the loop can finish on splits into discarded
      stray bytes, the captured reply and the remaining bytes. */
  lemma CaptureSplits(s: seq<byte>)
    requires CanCapture(s)
    ensures s == s[..Consumed(s) - FRAME_SIZE] + Captured(s) + Remaining(s)
    ensures forall j :: 0 <= j < Consumed(s) - FRAME_SIZE ==> s[j] != STX
  {
  }

  /** A stream whose only start bytes come too late to be followed by seven
      more bytes never lets the loop finish: the source then waits forever. */
  lemma ShortReplyBlocks(stray: seq<byte>, partial: seq<byte>)
    requires forall j :: 0 <= j < |stray| ==> stray[j] != STX
    requires 0 < |partial| < FRAME_SIZE && partial[0] == STX
    ensures !CanCapture(stray + partial)
  {
    StartAfterStrayBytes(stray, partial);
  }
}
