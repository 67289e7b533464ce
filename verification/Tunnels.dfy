/**
  Byte streams through the relay (crates/rivetlink-agent/src/relay/client.rs and
  crates/rivetlink-sdk/src/relay_tunnel.rs): many tunnels share one ordered link to the host,
  each with a bounded queue and a pump task, and an optional direct path beside it.
 */
module Tunnels {
  import opened Common

  const SID_LEN := 16
  const MAX_TUNNEL_PAYLOAD := 64 * 1024
  const QUEUE_SLOTS := 64

  type Sid = s: seq<byte> | |s| == SID_LEN witness seq(SID_LEN, i => 0)

  /** What travels on a link. Signalling is parsed; other text is ignored by both sides. */
  datatype Message = Binary(frame: seq<byte>) | Request(sid: Sid) | Offer(sid: Sid) | SessionClosed(sid: Sid) | OtherText

  // ---- frames ----

  function Frame(sid: Sid, payload: seq<byte>): seq<byte> {
    sid + payload
  }

  function SplitTunnelFrame(frame: seq<byte>): Option<(Sid, seq<byte>)> {
    if |frame| <= SID_LEN then None else Some((frame[..SID_LEN], frame[SID_LEN..]))
  }

  /** Splitting undoes framing, except that an empty payload is no frame. */
  lemma SplitOfFrame(sid: Sid, payload: seq<byte>)
    ensures SplitTunnelFrame(Frame(sid, payload)) == if payload == [] then None else Some((sid, payload))
  {
  }

  /** The client strips its own session id and skips every other frame. */
  function StripSid(frame: seq<byte>, sid: Sid): Option<seq<byte>> {
    if sid <= frame then Some(frame[SID_LEN..]) else None
  }

  lemma StripOfFrame(a: Sid, payload: seq<byte>, b: Sid)
    ensures StripSid(Frame(a, payload), b) == if a == b then Some(payload) else None
  {
    assert Frame(a, payload)[..SID_LEN] == a;
  }

  /** The bytes of one session among the messages of a link. */
  function Payload(m: Message, sid: Sid): seq<byte> {
    if m.Binary? && StripSid(m.frame, sid).Some? then StripSid(m.frame, sid).value else []
  }

  function Carried(link: seq<Message>, sid: Sid): seq<byte> {
    if link == [] then [] else Payload(link[0], sid) + Carried(link[1..], sid)
  }

  lemma {:induction false} CarriedAppend(link: seq<Message>, m: Message, sid: Sid)
    ensures Carried(link + [m], sid) == Carried(link, sid) + Payload(m, sid)
    decreases |link|
  {
    if link == [] {
      assert link + [m] == [m];
      assert Carried([], sid) == [];
    } else {
      assert (link + [m])[1..] == link[1..] + [m];
      CarriedAppend(link[1..], m, sid);
      Associates(Payload(link[0], sid), Carried(link[1..], sid), Payload(m, sid));
    }
  }

  function Concat(chunks: seq<seq<byte>>): seq<byte> {
    if chunks == [] then [] else chunks[0] + Concat(chunks[1..])
  }

  lemma {:induction false} ConcatAppend(chunks: seq<seq<byte>>, c: seq<byte>)
    ensures Concat(chunks + [c]) == Concat(chunks) + c
    decreases |chunks|
  {
    if chunks == [] {
      assert chunks + [c] == [c];
      assert Concat([]) == [];
    } else {
      assert (chunks + [c])[1..] == chunks[1..] + [c];
      ConcatAppend(chunks[1..], c);
      Associates(chunks[0], Concat(chunks[1..]), c);
    }
  }

  // ---- the pumps as loops ----

  /** What is read before the reader ends, which an empty read tells. */
  function UntilEof(chunks: seq<seq<byte>>): seq<seq<byte>> {
    if chunks == [] || chunks[0] == [] then [] else [chunks[0]] + UntilEof(chunks[1..])
  }

  function Framed(chunks: seq<seq<byte>>, sid: Sid): seq<Message> {
    if chunks == [] || chunks[0] == [] then [SessionClosed(sid)] else [Binary(Frame(sid, chunks[0]))] + Framed(chunks[1..], sid)
  }

  /** `upstream`: every read becomes one frame, and the end is announced. */
  method Upstream(chunks: seq<seq<byte>>, sid: Sid) returns (sent: seq<Message>)
    ensures sent == Framed(chunks, sid)
  {
    sent := [];
    var i := 0;
    while i < |chunks| && chunks[i] != []
      invariant 0 <= i <= |chunks| && sent + Framed(chunks[i..], sid) == Framed(chunks, sid)
    {
      assert chunks[i..][1..] == chunks[i + 1..];
      Associates(sent, [Binary(Frame(sid, chunks[i]))], Framed(chunks[i + 1..], sid));
      sent := sent + [Binary(Frame(sid, chunks[i]))];
      i := i + 1;
    }
    sent := sent + [SessionClosed(sid)];
  }

  /** The other end gets exactly the bytes read, and no other session gets any. */
  lemma {:induction false} UpstreamReachesItsSession(chunks: seq<seq<byte>>, sid: Sid, other: Sid)
    ensures Carried(UntilClosed(Framed(chunks, sid), sid), sid) == Concat(UntilEof(chunks))
    ensures other != sid ==> Carried(Framed(chunks, sid), other) == []
  {
    if chunks != [] && chunks[0] != [] {
      var rest := Framed(chunks[1..], sid);
      assert Framed(chunks, sid)[1..] == rest;
      StripOfFrame(sid, chunks[0], sid);
      StripOfFrame(sid, chunks[0], other);
      UpstreamReachesItsSession(chunks[1..], sid, other);
      assert UntilClosed(Framed(chunks, sid), sid)[1..] == UntilClosed(rest, sid);
      assert UntilEof(chunks)[1..] == UntilEof(chunks[1..]);
    } else {
      assert Framed(chunks, sid)[1..] == [];
      assert Carried([], other) == [];
    }
  }

  /** `downstream` on what arrives before the session is closed. */
  function UntilClosed(incoming: seq<Message>, sid: Sid): seq<Message> {
    if incoming == [] || incoming[0] == SessionClosed(sid) then [] else [incoming[0]] + UntilClosed(incoming[1..], sid)
  }

  method Downstream(incoming: seq<Message>, sid: Sid) returns (written: seq<byte>)
    ensures written == Carried(UntilClosed(incoming, sid), sid)
  {
    written := [];
    var i := 0;
    while i < |incoming| && incoming[i] != SessionClosed(sid)
      invariant 0 <= i <= |incoming|
      invariant written + Carried(UntilClosed(incoming[i..], sid), sid) == Carried(UntilClosed(incoming, sid), sid)
    {
      assert incoming[i..][1..] == incoming[i + 1..];
      ghost var rest := UntilClosed(incoming[i + 1..], sid);
      assert ([incoming[i]] + rest)[1..] == rest;
      Associates(written, Payload(incoming[i], sid), Carried(rest, sid));
      if incoming[i].Binary? {
        var payload := StripSid(incoming[i].frame, sid);
        if payload.Some? {
          written := written + payload.value;
        }
      }
      i := i + 1;
    }
  }
}
