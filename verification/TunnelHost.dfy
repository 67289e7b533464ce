/**
  The host's tunnel loop with its pump tasks, composed with any number of clients over one
  ordered link in each direction. Session ids are not reused; nothing else is assumed of the
  order in which frames, closes, stuck queues and task ends happen.
 */
module TunnelHost {
  import opened Common
  import opened Tunnels

  /** A tunnel task. `writing` is the rest of the payload its pump is writing; `pumping` ends
      when either direction of the pump ends. */
  datatype Tunnel = Tunnel(queue: seq<seq<byte>>, writing: seq<byte>, pumping: bool)

  /** `local` is what each session's stream received, `paths` the direct paths ever begun. */
  datatype Host = Host(max: nat, inbound: set<Sid>, tunnels: map<Sid, Tunnel>, directs: map<nat, Sid>, offered: set<Sid>,
                       local: map<Sid, seq<byte>>, paths: seq<Sid>)

  function Tasks(h: Host): nat {
    |h.tunnels| + |h.directs|
  }

  /** A frame is dropped, queued, or, after waiting too long, closes its tunnel. `waits` says
      that the queue is full and time is left. */
  datatype Step = Step(h: Host, waits: bool)

  function DoFrame(h: Host, frame: seq<byte>, timeout: bool): Step {
    var f := SplitTunnelFrame(frame);
    if f.None? || f.value.0 !in h.inbound || f.value.0 !in h.tunnels then Step(h, false)
    else
      var sid, t := f.value.0, h.tunnels[f.value.0];
      if t.pumping && |t.queue| < QUEUE_SLOTS then Step(h.(tunnels := h.tunnels[sid := t.(queue := t.queue + [f.value.1])]), false)
      else if t.pumping && !timeout then Step(h, true)
      else Step(h.(inbound := h.inbound - {sid}), false)
  }

  function DoRequest(h: Host, sid: Sid): Host {
    if Tasks(h) >= h.max then h
    else h.(inbound := h.inbound + {sid}, tunnels := h.tunnels[sid := Tunnel([], [], true)], local := h.local[sid := []])
  }

  predicate Accepts(h: Host, sid: Sid) {
    Tasks(h) < h.max
  }

  function DoOffer(h: Host, task: nat, sid: Sid): Host {
    if sid !in h.inbound || Tasks(h) >= h.max || sid in h.offered || task in h.directs then h
    else h.(offered := h.offered + {sid}, directs := h.directs[task := sid], paths := h.paths + [sid])
  }

  function DoClose(h: Host, sid: Sid): Host {
    h.(inbound := h.inbound - {sid})
  }

  /** The pump takes the next payload, and writes it piece by piece. */
  function DoTakePayload(h: Host, sid: Sid): Host {
    if sid !in h.tunnels || h.tunnels[sid].queue == [] || h.tunnels[sid].writing != [] then h
    else
      var t := h.tunnels[sid];
      h.(tunnels := h.tunnels[sid := t.(queue := t.queue[1..], writing := t.queue[0])])
  }

  function DoWriteLocal(h: Host, sid: Sid, n: nat): Host {
    if sid !in h.tunnels || sid !in h.local || n > |h.tunnels[sid].writing| then h
    else
      var t := h.tunnels[sid];
      h.(tunnels := h.tunnels[sid := t.(writing := t.writing[n..])], local := h.local[sid := h.local[sid] + t.writing[..n]])
  }

  /** The pump ends: whatever it had not written is gone. */
  function DoPumpEnds(h: Host, sid: Sid): Host {
    if sid !in h.tunnels then h else h.(tunnels := h.tunnels[sid := Tunnel([], [], false)])
  }

  function DoTunnelEnds(h: Host, sid: Sid): Host {
    if sid !in h.tunnels || h.tunnels[sid].pumping then h
    else h.(tunnels := h.tunnels - {sid}, inbound := h.inbound - {sid}, offered := h.offered - {sid})
  }

  function DoDirectEnds(h: Host, task: nat): Host {
    h.(directs := h.directs - {task})
  }

  lemma TasksAreKeys(h: Host)
    ensures Tasks(h) == |h.tunnels.Keys| + |h.directs.Keys|
  {
    assert |h.tunnels| == |h.tunnels.Keys| && |h.directs| == |h.directs.Keys|;
  }

  lemma RequestKeys(h: Host, sid: Sid)
    ensures var h' := DoRequest(h, sid);
            && h'.max == h.max && h'.directs == h.directs && h'.offered == h.offered
            && h'.inbound == (if Accepts(h, sid) then h.inbound + {sid} else h.inbound)
            && h'.tunnels.Keys == (if Accepts(h, sid) then h.tunnels.Keys + {sid} else h.tunnels.Keys)
  {
  }

  /** The loop's own state as the source keeps it; queues belong to the pumps. */
  class HostLoop {
    var max: nat
    var inbound: set<Sid>
    var running: set<Sid>
    var directs: set<nat>
    var offered: set<Sid>

    ghost predicate Matches(h: Host)
      reads this
    {
      && max == h.max && inbound == h.inbound && running == h.tunnels.Keys && directs == h.directs.Keys && offered == h.offered
    }

    constructor (max: nat)
      ensures Matches(Host(max, {}, map[], map[], {}, map[], []))
    {
      this.max, inbound, running, directs, offered := max, {}, {}, {}, {};
    }

    method OnRequest(sid: Sid, ghost h: Host) returns (accepted: bool)
      requires Matches(h)
      modifies this
      ensures Matches(DoRequest(h, sid)) && accepted == Accepts(h, sid)
    {
      TasksAreKeys(h);
      RequestKeys(h, sid);
      accepted := |running| + |directs| < max;
      if accepted {
        inbound := inbound + {sid};
        running := running + {sid};
      }
    }

    method OnOffer(task: nat, sid: Sid, ghost h: Host) returns (began: bool)
      requires Matches(h) && task !in directs
      modifies this
      ensures Matches(DoOffer(h, task, sid)) && began == (DoOffer(h, task, sid).paths != h.paths)
    {
      TasksAreKeys(h);
      began := sid in inbound && |running| + |directs| < max && sid !in offered;
      if began {
        offered := offered + {sid};
        directs := directs + {task};
      }
    }

    method OnTunnelEnded(sid: Sid, ghost h: Host)
      requires Matches(h) && sid in h.tunnels && !h.tunnels[sid].pumping
      modifies this
      ensures Matches(DoTunnelEnds(h, sid))
    {
      running := running - {sid};
      inbound := inbound - {sid};
      offered := offered - {sid};
    }
  }

  // ---- the system ----

  /** One client: what its caller wrote, how much of it was framed, what it read from the
      host's link and how far, and whether it still reads. */
  datatype Peer = Peer(written: seq<byte>, sent: nat, pos: nat, received: seq<byte>, reading: bool)

  /** What a session on the host wrote to its stream and how much of it was framed. */
  datatype Output = Output(written: seq<byte>, sent: nat)

  datatype State = State(host: Host, link: seq<Message>, out: seq<Message>, requested: set<Sid>,
                         accepted: set<Sid>, peers: map<Sid, Peer>, outputs: map<Sid, Output>)

  datatype Event =
    | Ask(sid: Sid)
    | Opens(sid: Sid)
    | PeerWrites(sid: Sid, data: seq<byte>)
    | PeerSends(sid: Sid, n: nat)
    | PeerSignals(m: Message)
    | PeerReads(sid: Sid)
    | HostReads(timeout: bool, task: nat)
    | TakePayload(sid: Sid)
    | WriteLocal(sid: Sid, n: nat)
    | PumpEnds(sid: Sid)
    | TunnelEnds(sid: Sid)
    | DirectEnds(task: nat)
    | HostWrites(sid: Sid, data: seq<byte>)
    | HostSends(sid: Sid, n: nat)

  function Start(max: nat): State {
    State(Host(max, {}, map[], map[], {}, map[], []), [], [], {}, {}, map[], map[])
  }

  /** The relay passes a request on; ids are never reused. */
  function DoAsk(s: State, sid: Sid): State {
    if sid in s.requested then s else s.(requested := s.requested + {sid}, link := s.link + [Request(sid)])
  }

  /** A client that was accepted starts its pumps. */
  function DoOpens(s: State, sid: Sid): State {
    if sid !in s.accepted || sid in s.peers then s else s.(peers := s.peers[sid := Peer([], 0, 0, [], true)])
  }

  function DoPeerWrites(s: State, sid: Sid, data: seq<byte>): State {
    if sid !in s.peers then s else s.(peers := s.peers[sid := s.peers[sid].(written := s.peers[sid].written + data)])
  }

  function DoPeerSends(s: State, sid: Sid, n: nat): State {
    if sid !in s.peers || n == 0 || n > MAX_TUNNEL_PAYLOAD || s.peers[sid].sent + n > |s.peers[sid].written| then s
    else
      var p := s.peers[sid];
      s.(peers := s.peers[sid := p.(sent := p.sent + n)],
         link := s.link + [Binary(Frame(sid, p.written[p.sent..p.sent + n]))])
  }

  /** Closes, offers and other text may come at any time. */
  function DoPeerSignals(s: State, m: Message): State {
    if m.Binary? || m.Request? then s else s.(link := s.link + [m])
  }

  function DoPeerReads(s: State, sid: Sid): State {
    if sid !in s.peers || !s.peers[sid].reading || s.peers[sid].pos >= |s.out| then s
    else
      var p := s.peers[sid];
      var m := s.out[p.pos];
      if m == SessionClosed(sid) then s.(peers := s.peers[sid := p.(reading := false)])
      else s.(peers := s.peers[sid := p.(pos := p.pos + 1, received := p.received + Payload(m, sid))])
  }

  function DoHostReads(s: State, timeout: bool, task: nat): State {
    if s.link == [] then s
    else
      var m, rest := s.link[0], s.link[1..];
      match m
      case Binary(frame) =>
        var step := DoFrame(s.host, frame, timeout);
        if step.waits then s else s.(host := step.h, link := rest)
      case Request(sid) =>
        if Accepts(s.host, sid) then
          s.(host := DoRequest(s.host, sid), link := rest, accepted := s.accepted + {sid}, outputs := s.outputs[sid := Output([], 0)])
        else s.(link := rest)
      case Offer(sid) => s.(host := DoOffer(s.host, task, sid), link := rest)
      case SessionClosed(sid) => s.(host := DoClose(s.host, sid), link := rest)
      case OtherText => s.(link := rest)
  }

  function DoHostWrites(s: State, sid: Sid, data: seq<byte>): State {
    if sid !in s.outputs then s else s.(outputs := s.outputs[sid := s.outputs[sid].(written := s.outputs[sid].written + data)])
  }

  function DoHostSends(s: State, sid: Sid, n: nat): State {
    if sid !in s.outputs || sid !in s.host.tunnels || !s.host.tunnels[sid].pumping
       || n == 0 || n > MAX_TUNNEL_PAYLOAD || s.outputs[sid].sent + n > |s.outputs[sid].written| then s
    else
      var o := s.outputs[sid];
      s.(outputs := s.outputs[sid := o.(sent := o.sent + n)],
         out := s.out + [Binary(Frame(sid, o.written[o.sent..o.sent + n]))])
  }

  function DoPump(s: State, sid: Sid): State {
    if sid !in s.host.tunnels || !s.host.tunnels[sid].pumping then s
    else s.(host := DoPumpEnds(s.host, sid), out := s.out + [SessionClosed(sid)])
  }

  function Apply(s: State, e: Event): State {
    match e
    case Ask(sid) => DoAsk(s, sid)
    case Opens(sid) => DoOpens(s, sid)
    case PeerWrites(sid, data) => DoPeerWrites(s, sid, data)
    case PeerSends(sid, n) => DoPeerSends(s, sid, n)
    case PeerSignals(m) => DoPeerSignals(s, m)
    case PeerReads(sid) => DoPeerReads(s, sid)
    case HostReads(timeout, task) => DoHostReads(s, timeout, task)
    case TakePayload(sid) => s.(host := DoTakePayload(s.host, sid))
    case WriteLocal(sid, n) => s.(host := DoWriteLocal(s.host, sid, n))
    case PumpEnds(sid) => DoPump(s, sid)
    case TunnelEnds(sid) => s.(host := DoTunnelEnds(s.host, sid))
    case DirectEnds(task) => s.(host := DoDirectEnds(s.host, task))
    case HostWrites(sid, data) => DoHostWrites(s, sid, data)
    case HostSends(sid, n) => DoHostSends(s, sid, n)
  }

  function Run(max: nat, events: seq<Event>): State
    decreases |events|
  {
    if events == [] then Start(max) else Apply(Run(max, events[..|events| - 1]), Last(events))
  }

  // ---- the task limit and direct paths ----

  predicate PathOk(h: Host, i: nat)
    requires i < |h.paths|
  {
    && h.paths[i] in h.local && (h.paths[i] in h.offered || h.paths[i] !in h.tunnels)
    && forall j | 0 <= j < i :: h.paths[j] != h.paths[i]
  }

  predicate HostInv(h: Host) {
    && Tasks(h) <= h.max
    && h.inbound <= h.tunnels.Keys && h.tunnels.Keys <= h.local.Keys
    && forall i | 0 <= i < |h.paths| :: PathOk(h, i)
  }

  lemma FrameHost(h: Host, frame: seq<byte>, timeout: bool)
    requires HostInv(h)
    ensures HostInv(DoFrame(h, frame, timeout).h)
  {
    var h' := DoFrame(h, frame, timeout).h;
    assert h'.tunnels.Keys == h.tunnels.Keys;
    assert |h'.tunnels| == |h'.tunnels.Keys| && |h.tunnels| == |h.tunnels.Keys|;
    assert forall i | 0 <= i < |h.paths| :: PathOk(h, i) ==> PathOk(h', i);
  }

  lemma RequestHost(h: Host, sid: Sid)
    requires HostInv(h) && sid !in h.local
    ensures HostInv(DoRequest(h, sid))
  {
    var h' := DoRequest(h, sid);
    assert forall i | 0 <= i < |h.paths| :: PathOk(h, i) ==> PathOk(h', i);
  }

  lemma OfferHost(h: Host, task: nat, sid: Sid)
    requires HostInv(h)
    ensures HostInv(DoOffer(h, task, sid))
  {
    var h' := DoOffer(h, task, sid);
    forall i | 0 <= i < |h'.paths|
      ensures PathOk(h', i)
    {
      if i < |h.paths| {
        assert PathOk(h, i);
      } else {
        forall j | 0 <= j < i
          ensures h'.paths[j] != h'.paths[i]
        {
          assert PathOk(h, j);
        }
      }
    }
  }

  lemma SameTunnelsHost(h: Host, sid: Sid, t: Tunnel, data: seq<byte>)
    requires HostInv(h) && sid in h.tunnels
    ensures HostInv(h.(tunnels := h.tunnels[sid := t], local := h.local[sid := data]))
  {
    var h' := h.(tunnels := h.tunnels[sid := t], local := h.local[sid := data]);
    assert h'.tunnels.Keys == h.tunnels.Keys && h'.local.Keys == h.local.Keys;
    assert |h'.tunnels| == |h'.tunnels.Keys| && |h.tunnels| == |h.tunnels.Keys|;
    assert forall i | 0 <= i < |h.paths| :: PathOk(h, i) ==> PathOk(h', i);
  }

  lemma TunnelEndsHost(h: Host, sid: Sid)
    requires HostInv(h)
    ensures HostInv(DoTunnelEnds(h, sid))
  {
    var h' := DoTunnelEnds(h, sid);
    assert |h'.tunnels| == |h'.tunnels.Keys| && |h.tunnels| == |h.tunnels.Keys|;
    assert forall i | 0 <= i < |h.paths| :: PathOk(h, i) ==> PathOk(h', i);
  }

  lemma DirectEndsHost(h: Host, task: nat)
    requires HostInv(h)
    ensures HostInv(DoDirectEnds(h, task))
  {
    var h' := DoDirectEnds(h, task);
    assert |h'.directs| == |h'.directs.Keys| && |h.directs| == |h.directs.Keys|;
    assert forall i | 0 <= i < |h.paths| :: PathOk(h, i) ==> PathOk(h', i);
  }

  // ---- client to host ----

  function Pending(h: Host, sid: Sid): seq<byte> {
    if sid in h.tunnels then h.tunnels[sid].writing + Concat(h.tunnels[sid].queue) else []
  }

  /** What the session's stream got, and what its pump still holds. */
  function Delivered(h: Host, sid: Sid): seq<byte> {
    if sid in h.local then h.local[sid] + Pending(h, sid) else []
  }

  predicate Live(h: Host, sid: Sid) {
    sid in h.inbound && sid in h.tunnels && h.tunnels[sid].pumping
  }

  /** While the tunnel is open nothing is missing; afterwards it is cut off, never garbled. */
  predicate Flow(s: State, sid: Sid) {
    if sid in s.peers then
      var p := s.peers[sid];
      && sid in s.host.local && p.sent <= |p.written|
      && Delivered(s.host, sid) <= p.written[..p.sent]
      && (Live(s.host, sid) ==> Delivered(s.host, sid) + Carried(s.link, sid) == p.written[..p.sent])
    else Carried(s.link, sid) == [] && Delivered(s.host, sid) == []
  }

  predicate LinkOk(s: State, i: nat)
    requires i < |s.link|
  {
    && (s.link[i].Binary? ==> |s.link[i].frame| > SID_LEN)
    && (s.link[i].Request? ==> s.link[i].sid in s.requested && s.link[i].sid !in s.host.local && s.link[i].sid !in s.accepted)
    && forall j | 0 <= j < i && s.link[i].Request? :: s.link[j] != s.link[i]
  }

  predicate Sessions(s: State) {
    && s.peers.Keys <= s.accepted && s.accepted <= s.host.local.Keys && s.host.local.Keys <= s.requested
    && forall i | 0 <= i < |s.link| :: LinkOk(s, i)
  }

  ghost predicate Flows(s: State) {
    forall sid: Sid :: Flow(s, sid)
  }

  ghost predicate Inv(s: State) {
    HostInv(s.host) && Sessions(s) && Flows(s)
  }

  /** Links grow at the end by messages that are no requests. */
  lemma AppendSessions(s: State, m: Message)
    requires Sessions(s) && !m.Request? && (m.Binary? ==> |m.frame| > SID_LEN)
    ensures Sessions(s.(link := s.link + [m]))
  {
    var s' := s.(link := s.link + [m]);
    forall i | 0 <= i < |s'.link|
      ensures LinkOk(s', i)
    {
      if i < |s.link| {
        assert LinkOk(s, i);
      }
    }
  }

  lemma SignalFlow(s: State, m: Message, x: Sid)
    requires Flow(s, x) && !m.Binary?
    ensures Flow(s.(link := s.link + [m]), x)
  {
    CarriedAppend(s.link, m, x);
  }

  lemma AskKeeps(s: State, sid: Sid)
    requires Inv(s)
    ensures Inv(DoAsk(s, sid))
  {
    if sid !in s.requested {
      var s' := DoAsk(s, sid);
      forall x: Sid
        ensures Flow(s', x)
      {
        assert Flow(s, x);
        SignalFlow(s, Request(sid), x);
      }
      forall i | 0 <= i < |s'.link|
        ensures LinkOk(s', i)
      {
        if i < |s.link| {
          assert LinkOk(s, i);
        } else {
          forall j | 0 <= j < i
            ensures s'.link[j] != s'.link[i]
          {
            assert LinkOk(s, j);
          }
        }
      }
    }
  }

  lemma SignalKeeps(s: State, m: Message)
    requires Inv(s)
    ensures Inv(DoPeerSignals(s, m))
  {
    if !m.Binary? && !m.Request? {
      AppendSessions(s, m);
      forall x: Sid
        ensures Flow(DoPeerSignals(s, m), x)
      {
        assert Flow(s, x);
        SignalFlow(s, m, x);
      }
    }
  }

  lemma PeersSessions(s: State, sid: Sid, p: Peer)
    requires Sessions(s) && sid in s.accepted
    ensures Sessions(s.(peers := s.peers[sid := p]))
  {
    var s' := s.(peers := s.peers[sid := p]);
    forall i | 0 <= i < |s'.link|
      ensures LinkOk(s', i)
    {
      assert LinkOk(s, i);
    }
  }

  lemma OpensKeeps(s: State, sid: Sid)
    requires Inv(s)
    ensures Inv(DoOpens(s, sid))
  {
    if sid in s.accepted && sid !in s.peers {
      PeersSessions(s, sid, Peer([], 0, 0, [], true));
      forall x: Sid
        ensures Flow(DoOpens(s, sid), x)
      {
        assert Flow(s, x);
      }
    }
  }

  lemma PeerWritesKeeps(s: State, sid: Sid, data: seq<byte>)
    requires Inv(s)
    ensures Inv(DoPeerWrites(s, sid, data))
  {
    if sid in s.peers {
      var p := s.peers[sid];
      PeersSessions(s, sid, p.(written := p.written + data));
      forall x: Sid
        ensures Flow(DoPeerWrites(s, sid, data), x)
      {
        assert Flow(s, x);
        assert (p.written + data)[..p.sent] == p.written[..p.sent] by {
          assert Flow(s, sid);
        }
      }
    }
  }

  lemma SameSessionFlow(d: seq<byte>, c: seq<byte>, written: seq<byte>, sent: nat, n: nat)
    requires sent + n <= |written| && d + c == written[..sent]
    ensures d + (c + written[sent..sent + n]) == written[..sent + n]
  {
    assert written[..sent] + written[sent..sent + n] == written[..sent + n];
    assert d + (c + written[sent..sent + n]) == (d + c) + written[sent..sent + n];
  }

  lemma OtherSendsFlow(s: State, sid: Sid, p: Peer, m: Message, x: Sid)
    requires Flow(s, x) && x != sid && Payload(m, x) == []
    ensures Flow(s.(peers := s.peers[sid := p], link := s.link + [m]), x)
  {
    CarriedAppend(s.link, m, x);
  }

  lemma OwnSendsFlow(s: State, sid: Sid, n: nat, m: Message)
    requires Flow(s, sid) && sid in s.peers && s.peers[sid].sent + n <= |s.peers[sid].written|
    requires Payload(m, sid) == s.peers[sid].written[s.peers[sid].sent..s.peers[sid].sent + n]
    ensures var p := s.peers[sid];
            Flow(s.(peers := s.peers[sid := p.(sent := p.sent + n)], link := s.link + [m]), sid)
  {
    var p := s.peers[sid];
    CarriedAppend(s.link, m, sid);
    if Live(s.host, sid) {
      SameSessionFlow(Delivered(s.host, sid), Carried(s.link, sid), p.written, p.sent, n);
    }
    assert p.written[..p.sent] <= p.written[..p.sent + n];
  }

  lemma PeerSendsFlow(s: State, sid: Sid, n: nat, x: Sid)
    requires Flow(s, x) && sid in s.peers && 0 < n && s.peers[sid].sent + n <= |s.peers[sid].written|
    ensures var p := s.peers[sid];
            Flow(s.(peers := s.peers[sid := p.(sent := p.sent + n)], link := s.link + [Binary(Frame(sid, p.written[p.sent..p.sent + n]))]), x)
  {
    var p := s.peers[sid];
    var chunk := p.written[p.sent..p.sent + n];
    StripOfFrame(sid, chunk, x);
    if x == sid {
      OwnSendsFlow(s, sid, n, Binary(Frame(sid, chunk)));
    } else {
      OtherSendsFlow(s, sid, p.(sent := p.sent + n), Binary(Frame(sid, chunk)), x);
    }
  }

  lemma PeerSendsKeeps(s: State, sid: Sid, n: nat)
    requires Inv(s)
    ensures Inv(DoPeerSends(s, sid, n))
  {
    if sid in s.peers && 0 < n <= MAX_TUNNEL_PAYLOAD && s.peers[sid].sent + n <= |s.peers[sid].written| {
      var p := s.peers[sid];
      AppendSessions(s, Binary(Frame(sid, p.written[p.sent..p.sent + n])));
      PeersSessions(s.(link := s.link + [Binary(Frame(sid, p.written[p.sent..p.sent + n]))]), sid, p.(sent := p.sent + n));
      forall x: Sid
        ensures Flow(DoPeerSends(s, sid, n), x)
      {
        assert Flow(s, x);
        PeerSendsFlow(s, sid, n, x);
      }
    }
  }

  // ---- the host's side ----

  /** A step inside the host that neither reads the link nor grows what a session got. */
  predicate Shrinks(h: Host, h': Host, x: Sid) {
    && h'.local.Keys == h.local.Keys && Delivered(h', x) <= Delivered(h, x)
    && (Live(h', x) ==> Live(h, x) && Delivered(h', x) == Delivered(h, x))
  }

  lemma ShrinksFlow(s: State, h': Host, x: Sid)
    requires Flow(s, x) && Shrinks(s.host, h', x)
    ensures Flow(s.(host := h'), x)
  {
  }

  lemma ShrinksKeeps(s: State, h': Host)
    requires Inv(s) && HostInv(h') && forall x: Sid :: Shrinks(s.host, h', x)
    ensures Inv(s.(host := h'))
  {
    var s' := s.(host := h');
    assert forall x: Sid :: Shrinks(s.host, h', x) ==> h'.local.Keys == s.host.local.Keys;
    var any: Sid := seq(SID_LEN, i => 0);
    assert Shrinks(s.host, h', any);
    forall i | 0 <= i < |s.link|
      ensures LinkOk(s', i)
    {
      assert LinkOk(s, i);
    }
    forall x: Sid
      ensures Flow(s', x)
    {
      assert Flow(s, x);
      ShrinksFlow(s, h', x);
    }
  }

  lemma TakePayloadShrinks(h: Host, sid: Sid, x: Sid)
    ensures Shrinks(h, DoTakePayload(h, sid), x)
  {
    if sid in h.tunnels && h.tunnels[sid].queue != [] && h.tunnels[sid].writing == [] {
      var q := h.tunnels[sid].queue;
      assert q[0] + Concat(q[1..]) == [] + Concat(q);
    }
  }

  lemma WrittenStays(data: seq<byte>, w: seq<byte>, n: nat, queue: seq<byte>)
    requires n <= |w|
    ensures (data + w[..n]) + (w[n..] + queue) == data + (w + queue)
  {
    assert w == w[..n] + w[n..];
  }

  lemma WriteLocalShrinks(h: Host, sid: Sid, n: nat, x: Sid)
    ensures Shrinks(h, DoWriteLocal(h, sid, n), x)
  {
    if sid in h.tunnels && sid in h.local && n <= |h.tunnels[sid].writing| {
      var t := h.tunnels[sid];
      WrittenStays(h.local[sid], t.writing, n, Concat(t.queue));
    }
  }

  lemma PumpEndsShrinks(h: Host, sid: Sid, x: Sid)
    ensures Shrinks(h, DoPumpEnds(h, sid), x)
  {
  }

  lemma TunnelEndsShrinks(h: Host, sid: Sid, x: Sid)
    ensures Shrinks(h, DoTunnelEnds(h, sid), x)
  {
  }

  lemma PumpStepKeeps(s: State, e: Event)
    requires Inv(s) && (e.TakePayload? || e.WriteLocal? || e.TunnelEnds? || e.DirectEnds?)
    ensures Inv(Apply(s, e))
  {
    var h, h' := s.host, Apply(s, e).host;
    forall x: Sid
      ensures Shrinks(h, h', x)
    {
      match e
      case TakePayload(sid) => TakePayloadShrinks(h, sid, x);
      case WriteLocal(sid, n) => WriteLocalShrinks(h, sid, n, x);
      case TunnelEnds(sid) => TunnelEndsShrinks(h, sid, x);
      case DirectEnds(_) =>
    }
    match e {
      case TakePayload(sid) =>
        if sid in h.tunnels {
          SameTunnelsHost(h, sid, h'.tunnels[sid], h.local[sid]);
          assert h.local[sid := h.local[sid]] == h.local;
        }
      case WriteLocal(sid, n) =>
        if sid in h.tunnels {
          SameTunnelsHost(h, sid, h'.tunnels[sid], h'.local[sid]);
        }
      case TunnelEnds(sid) => TunnelEndsHost(h, sid);
      case DirectEnds(task) => DirectEndsHost(h, task);
    }
    ShrinksKeeps(s, h');
  }

  lemma PumpEndsKeeps(s: State, sid: Sid)
    requires Inv(s)
    ensures Inv(DoPump(s, sid))
  {
    if sid in s.host.tunnels && s.host.tunnels[sid].pumping {
      forall x: Sid
        ensures Shrinks(s.host, DoPumpEnds(s.host, sid), x)
      {
        PumpEndsShrinks(s.host, sid, x);
      }
      SameTunnelsHost(s.host, sid, Tunnel([], [], false), s.host.local[sid]);
      assert s.host.local[sid := s.host.local[sid]] == s.host.local;
      ShrinksKeeps(s, DoPumpEnds(s.host, sid));
      var t := s.(host := DoPumpEnds(s.host, sid));
      SameInv(t, DoPump(s, sid));
    }
  }

  /** The invariant speaks of neither the host's link nor how far clients have read it. */
  lemma SameInv(s: State, s': State)
    requires Inv(s) && s'.host == s.host && s'.link == s.link && s'.requested == s.requested && s'.accepted == s.accepted
    requires s'.peers.Keys == s.peers.Keys
    requires forall sid | sid in s.peers :: s'.peers[sid].written == s.peers[sid].written && s'.peers[sid].sent == s.peers[sid].sent
    ensures Inv(s')
  {
    forall i | 0 <= i < |s'.link|
      ensures LinkOk(s', i)
    {
      assert LinkOk(s, i);
    }
    forall x: Sid
      ensures Flow(s', x)
    {
      assert Flow(s, x);
    }
  }

  lemma ReadSessions(s: State)
    requires Sessions(s) && s.link != [] && !s.link[0].Request?
    ensures Sessions(s.(link := s.link[1..]))
  {
    var s' := s.(link := s.link[1..]);
    forall i | 0 <= i < |s'.link|
      ensures LinkOk(s', i)
    {
      assert LinkOk(s, i + 1);
    }
  }

  lemma ReadSignalKeeps(s: State)
    requires Inv(s) && s.link != [] && !s.link[0].Binary? && !s.link[0].Request?
    ensures Inv(s.(link := s.link[1..]))
  {
    ReadSessions(s);
    forall x: Sid
      ensures Flow(s.(link := s.link[1..]), x)
    {
      assert Flow(s, x);
    }
  }

  lemma OfferCloseKeeps(s: State, h': Host)
    requires Inv(s) && HostInv(h') && h'.tunnels == s.host.tunnels && h'.local == s.host.local && h'.inbound <= s.host.inbound
    ensures Inv(s.(host := h'))
  {
    forall x: Sid
      ensures Shrinks(s.host, h', x)
    {
    }
    ShrinksKeeps(s, h');
  }

  lemma CloseHost(h: Host, sid: Sid)
    requires HostInv(h)
    ensures HostInv(DoClose(h, sid))
  {
    assert forall i | 0 <= i < |h.paths| :: PathOk(h, i) ==> PathOk(DoClose(h, sid), i);
  }

  /** A queued payload is the next part of what its session gets. */
  lemma QueuedDelivers(h: Host, sid: Sid, payload: seq<byte>)
    requires sid in h.tunnels && sid in h.local
    ensures var t := h.tunnels[sid];
            Delivered(h.(tunnels := h.tunnels[sid := t.(queue := t.queue + [payload])]), sid) == Delivered(h, sid) + payload
  {
    ConcatAppend(h.tunnels[sid].queue, payload);
  }

  lemma OtherFrameFlow(s: State, h': Host, x: Sid)
    requires Flow(s, x) && s.link != [] && Payload(s.link[0], x) == [] && Shrinks(s.host, h', x)
    ensures Flow(s.(host := h', link := s.link[1..]), x)
  {
    assert Carried(s.link, x) == Carried(s.link[1..], x);
    ShrinksFlow(s.(link := s.link[1..]), h', x);
  }

  lemma DroppedFrameFlow(s: State, h': Host, x: Sid)
    requires Flow(s, x) && s.link != [] && Shrinks(s.host, h', x) && !Live(h', x)
    ensures Flow(s.(host := h', link := s.link[1..]), x)
  {
  }

  lemma QueuedFrameFlow(s: State, payload: seq<byte>, x: Sid)
    requires Flow(s, x) && Live(s.host, x) && x in s.host.local && s.link != [] && Payload(s.link[0], x) == payload
    ensures var t := s.host.tunnels[x];
            Flow(s.(host := s.host.(tunnels := s.host.tunnels[x := t.(queue := t.queue + [payload])]), link := s.link[1..]), x)
  {
    QueuedDelivers(s.host, x, payload);
    var d, c := Delivered(s.host, x), Carried(s.link[1..], x);
    assert d + (payload + c) == (d + payload) + c;
    assert d + payload <= (d + payload) + c;
  }

  lemma FrameShrinks(h: Host, frame: seq<byte>, timeout: bool, x: Sid)
    requires |frame| > SID_LEN
    requires frame[..SID_LEN] != x || DoFrame(h, frame, timeout).h.tunnels == h.tunnels
    ensures Shrinks(h, DoFrame(h, frame, timeout).h, x)
  {
  }

  predicate Queues(h: Host, frame: seq<byte>) {
    var f := SplitTunnelFrame(frame);
    f.Some? && Live(h, f.value.0) && |h.tunnels[f.value.0].queue| < QUEUE_SLOTS
  }

  lemma ReadFrameFlow(s: State, timeout: bool, x: Sid)
    requires Flow(s, x) && HostInv(s.host) && s.link != [] && s.link[0].Binary? && |s.link[0].frame| > SID_LEN
    requires !DoFrame(s.host, s.link[0].frame, timeout).waits
    ensures Flow(s.(host := DoFrame(s.host, s.link[0].frame, timeout).h, link := s.link[1..]), x)
  {
    var frame := s.link[0].frame;
    var sid: Sid, payload := frame[..SID_LEN], frame[SID_LEN..];
    assert frame == Frame(sid, payload);
    StripOfFrame(sid, payload, x);
    var h' := DoFrame(s.host, frame, timeout).h;
    if x != sid {
      FrameShrinks(s.host, frame, timeout, x);
      OtherFrameFlow(s, h', x);
    } else if Queues(s.host, frame) {
      QueuedFrameFlow(s, payload, x);
    } else {
      FrameShrinks(s.host, frame, timeout, x);
      DroppedFrameFlow(s, h', x);
    }
  }

  lemma ReadFrameKeeps(s: State, timeout: bool)
    requires Inv(s) && s.link != [] && s.link[0].Binary?
    requires !DoFrame(s.host, s.link[0].frame, timeout).waits
    ensures Inv(s.(host := DoFrame(s.host, s.link[0].frame, timeout).h, link := s.link[1..]))
  {
    assert LinkOk(s, 0);
    ReadSessions(s);
    FrameHost(s.host, s.link[0].frame, timeout);
    var s' := s.(host := DoFrame(s.host, s.link[0].frame, timeout).h, link := s.link[1..]);
    forall i | 0 <= i < |s'.link|
      ensures LinkOk(s', i)
    {
      assert LinkOk(s, i + 1);
    }
    forall x: Sid
      ensures Flow(s', x)
    {
      assert Flow(s, x);
      ReadFrameFlow(s, timeout, x);
    }
  }

  lemma ReadRequestSessions(s: State, timeout: bool, task: nat)
    requires Sessions(s) && s.link != [] && s.link[0].Request?
    ensures Sessions(DoHostReads(s, timeout, task))
  {
    var sid, s' := s.link[0].sid, DoHostReads(s, timeout, task);
    assert LinkOk(s, 0);
    forall i | 0 <= i < |s'.link|
      ensures LinkOk(s', i)
    {
      assert LinkOk(s, i + 1);
      assert s'.link[i] == s.link[i + 1] && s.link[0] == Request(sid);
    }
  }

  lemma ReadRequestKeeps(s: State, timeout: bool, task: nat)
    requires Inv(s) && s.link != [] && s.link[0].Request?
    ensures Inv(DoHostReads(s, timeout, task))
  {
    var sid, s' := s.link[0].sid, DoHostReads(s, timeout, task);
    assert LinkOk(s, 0);
    RequestHost(s.host, sid);
    ReadRequestSessions(s, timeout, task);
    forall x: Sid
      ensures Flow(s', x)
    {
      assert Flow(s, x);
      ReadRequestFlow(s, timeout, task, x);
    }
  }

  lemma ReadRequestFlow(s: State, timeout: bool, task: nat, x: Sid)
    requires Flow(s, x) && s.link != [] && s.link[0].Request? && s.link[0].sid !in s.peers && s.link[0].sid !in s.host.local
    ensures Flow(DoHostReads(s, timeout, task), x)
  {
    var sid := s.link[0].sid;
    assert Carried(s.link, x) == Carried(s.link[1..], x);
    AcceptedDelivers(s.host, sid, x);
  }

  lemma AcceptedDelivers(h: Host, sid: Sid, x: Sid)
    requires sid !in h.local
    ensures Delivered(DoRequest(h, sid), x) == Delivered(h, x)
    ensures x != sid ==> (Live(DoRequest(h, sid), x) <==> Live(h, x)) && (x in DoRequest(h, sid).local <==> x in h.local)
  {
    assert Concat([]) == [];
  }

  lemma HostReadsKeeps(s: State, timeout: bool, task: nat)
    requires Inv(s)
    ensures Inv(DoHostReads(s, timeout, task))
  {
    if s.link != [] {
      var rest := s.(link := s.link[1..]);
      match s.link[0]
      case Binary(frame) =>
        if !DoFrame(s.host, frame, timeout).waits {
          ReadFrameKeeps(s, timeout);
        }
      case Request(sid) => ReadRequestKeeps(s, timeout, task);
      case Offer(sid) =>
        ReadSignalKeeps(s);
        OfferHost(s.host, task, sid);
        OfferCloseKeeps(rest, DoOffer(s.host, task, sid));
      case SessionClosed(sid) =>
        ReadSignalKeeps(s);
        CloseHost(s.host, sid);
        OfferCloseKeeps(rest, DoClose(s.host, sid));
      case OtherText => ReadSignalKeeps(s);
    }
  }

  lemma StepKeeps(s: State, e: Event)
    requires Inv(s)
    ensures Inv(Apply(s, e))
  {
    match e
    case Ask(sid) => AskKeeps(s, sid);
    case Opens(sid) => OpensKeeps(s, sid);
    case PeerWrites(sid, data) => PeerWritesKeeps(s, sid, data);
    case PeerSends(sid, n) => PeerSendsKeeps(s, sid, n);
    case PeerSignals(m) => SignalKeeps(s, m);
    case PeerReads(sid) => SameInv(s, DoPeerReads(s, sid));
    case HostReads(timeout, task) => HostReadsKeeps(s, timeout, task);
    case TakePayload(_) => PumpStepKeeps(s, e);
    case WriteLocal(_, _) => PumpStepKeeps(s, e);
    case PumpEnds(sid) => PumpEndsKeeps(s, sid);
    case TunnelEnds(_) => PumpStepKeeps(s, e);
    case DirectEnds(_) => PumpStepKeeps(s, e);
    case HostWrites(sid, data) => SameInv(s, DoHostWrites(s, sid, data));
    case HostSends(sid, n) => SameInv(s, DoHostSends(s, sid, n));
  }

  lemma MaxKept(s: State, e: Event)
    ensures Apply(s, e).host.max == s.host.max
  {
    if e.HostReads? {
      ReadMax(s, e.timeout, e.task);
    }
  }

  lemma ReadMax(s: State, timeout: bool, task: nat)
    ensures DoHostReads(s, timeout, task).host.max == s.host.max
  {
  }

  lemma {:induction false} RunKeeps(max: nat, events: seq<Event>)
    ensures Inv(Run(max, events)) && Run(max, events).host.max == max
    decreases |events|
  {
    if events != [] {
      var s := Run(max, events[..|events| - 1]);
      RunKeeps(max, events[..|events| - 1]);
      StepKeeps(s, Last(events));
      MaxKept(s, Last(events));
    }
  }

  /** In every run, what a session's stream on the host got is a prefix of what that session's
      client wrote, byte for byte and with nothing of any other session. */
  lemma LocalStreamIsAPrefix(max: nat, events: seq<Event>, sid: Sid)
    ensures var s := Run(max, events);
            sid in s.host.local && s.host.local[sid] != [] ==> sid in s.peers && s.host.local[sid] <= s.peers[sid].written
  {
    RunKeeps(max, events);
    var s := Run(max, events);
    assert Flow(s, sid);
    if sid in s.peers {
      var p := s.peers[sid];
      assert p.written[..p.sent] <= p.written;
    }
  }

  /** In every run, running tasks never exceed the limit and no session gets two direct paths. */
  lemma TasksAreBounded(max: nat, events: seq<Event>, i: nat, j: nat)
    ensures var h := Run(max, events).host;
            Tasks(h) <= max && (i < j < |h.paths| ==> h.paths[i] != h.paths[j])
  {
    RunKeeps(max, events);
    var h := Run(max, events).host;
    if i < j < |h.paths| {
      assert PathOk(h, j);
    }
  }

  /** An open tunnel loses nothing: with everything in transit handed over, the stream got all
      that was sent. */
  lemma OpenTunnelLosesNothing(max: nat, events: seq<Event>, sid: Sid)
    ensures var s := Run(max, events);
            sid in s.peers && Live(s.host, sid) && Carried(s.link, sid) == [] && s.host.tunnels[sid] == Tunnel([], [], true) ==>
              s.peers[sid].sent <= |s.peers[sid].written| && sid in s.host.local
              && s.host.local[sid] == s.peers[sid].written[..s.peers[sid].sent]
  {
    RunKeeps(max, events);
    var s := Run(max, events);
    assert Flow(s, sid);
    assert Concat([]) == [];
  }

  // ---- host to client ----

  /** Every client reads the whole link and keeps the frames of its own session. */
  predicate OutFlow(s: State, sid: Sid) {
    && (if sid in s.outputs then
          s.outputs[sid].sent <= |s.outputs[sid].written| && Carried(s.out, sid) == s.outputs[sid].written[..s.outputs[sid].sent]
        else Carried(s.out, sid) == [])
    && (sid in s.peers ==> s.peers[sid].pos <= |s.out| && s.peers[sid].received == Carried(s.out[..s.peers[sid].pos], sid))
  }

  predicate OutSessions(s: State) {
    s.outputs.Keys == s.accepted && forall i | 0 <= i < |s.link| && s.link[i].Request? :: s.link[i].sid !in s.accepted
  }

  lemma OutAppend(s: State, m: Message, x: Sid)
    requires OutFlow(s, x) && Payload(m, x) == []
    ensures OutFlow(s.(out := s.out + [m]), x)
  {
    CarriedAppend(s.out, m, x);
    if x in s.peers {
      assert (s.out + [m])[..s.peers[x].pos] == s.out[..s.peers[x].pos];
    }
  }

  lemma HostSendsFlow(s: State, sid: Sid, n: nat, x: Sid)
    requires OutFlow(s, x)
    ensures OutFlow(DoHostSends(s, sid, n), x)
  {
    if DoHostSends(s, sid, n) != s {
      var o := s.outputs[sid];
      var chunk := o.written[o.sent..o.sent + n];
      var m := Binary(Frame(sid, chunk));
      StripOfFrame(sid, chunk, x);
      CarriedAppend(s.out, m, x);
      if x == sid {
        assert o.written[..o.sent] + chunk == o.written[..o.sent + n];
      }
      if x in s.peers {
        assert (s.out + [m])[..s.peers[x].pos] == s.out[..s.peers[x].pos];
      }
    }
  }

  lemma PeerReadsFlow(s: State, sid: Sid, x: Sid)
    requires OutFlow(s, x)
    ensures OutFlow(DoPeerReads(s, sid), x)
  {
    if x == sid && sid in s.peers && s.peers[sid].pos < |s.out| {
      var p := s.peers[sid];
      assert s.out[..p.pos + 1] == s.out[..p.pos] + [s.out[p.pos]];
      CarriedAppend(s.out[..p.pos], s.out[p.pos], sid);
    }
  }

  lemma HostWritesFlow(s: State, sid: Sid, data: seq<byte>, x: Sid)
    requires OutFlow(s, x)
    ensures OutFlow(DoHostWrites(s, sid, data), x)
  {
    if sid in s.outputs && x == sid {
      var o := s.outputs[sid];
      assert (o.written + data)[..o.sent] == o.written[..o.sent];
    }
  }

  lemma HostReadsOut(s: State, timeout: bool, task: nat)
    ensures var s' := DoHostReads(s, timeout, task);
            && s'.out == s.out && s'.peers == s.peers
            && (s'.outputs == s.outputs
                || (s.link != [] && s.link[0].Request? && s'.outputs == s.outputs[s.link[0].sid := Output([], 0)]))
  {
  }

  lemma HostReadsFlow(s: State, timeout: bool, task: nat, x: Sid)
    requires OutFlow(s, x) && OutSessions(s)
    ensures OutFlow(DoHostReads(s, timeout, task), x)
  {
    HostReadsOut(s, timeout, task);
    if s.link != [] && s.link[0].Request? {
      assert s.link[0].sid !in s.outputs;
    }
  }

  lemma ClientStepFlow(s: State, e: Event, x: Sid)
    requires OutFlow(s, x) && (e.Ask? || e.Opens? || e.PeerWrites? || e.PeerSends? || e.PeerSignals?)
    ensures OutFlow(Apply(s, e), x)
  {
    assert s.out[..0] == [];
  }

  lemma OutStep(s: State, e: Event, x: Sid)
    requires OutFlow(s, x) && OutSessions(s)
    ensures OutFlow(Apply(s, e), x)
  {
    match e
    case PeerReads(sid) => PeerReadsFlow(s, sid, x);
    case HostReads(timeout, task) => HostReadsFlow(s, timeout, task, x);
    case PumpEnds(sid) => OutAppend(s, SessionClosed(sid), x);
    case HostWrites(sid, data) => HostWritesFlow(s, sid, data, x);
    case HostSends(sid, n) => HostSendsFlow(s, sid, n, x);
    case TakePayload(_) =>
    case WriteLocal(_, _) =>
    case TunnelEnds(_) =>
    case DirectEnds(_) =>
    case Ask(_) => ClientStepFlow(s, e, x);
    case Opens(_) => ClientStepFlow(s, e, x);
    case PeerWrites(_, _) => ClientStepFlow(s, e, x);
    case PeerSends(_, _) => ClientStepFlow(s, e, x);
    case PeerSignals(_) => ClientStepFlow(s, e, x);
  }

  lemma OutputsAreAccepted(s: State, e: Event)
    requires s.outputs.Keys == s.accepted
    ensures Apply(s, e).outputs.Keys == Apply(s, e).accepted
  {
  }

  lemma {:induction false} RunOut(max: nat, events: seq<Event>, sid: Sid)
    ensures OutFlow(Run(max, events), sid) && Run(max, events).outputs.Keys == Run(max, events).accepted
    decreases |events|
  {
    if events == [] {
      assert Carried([], sid) == [];
    } else {
      var s := Run(max, events[..|events| - 1]);
      RunOut(max, events[..|events| - 1], sid);
      RunKeeps(max, events[..|events| - 1]);
      forall i | 0 <= i < |s.link| && s.link[i].Request?
        ensures s.link[i].sid !in s.accepted
      {
        assert LinkOk(s, i);
      }
      OutputsAreAccepted(s, Last(events));
      OutStep(s, Last(events), sid);
    }
  }

  lemma {:induction false} CarriedPrefix(link: seq<Message>, k: nat, sid: Sid)
    requires k <= |link|
    ensures Carried(link[..k], sid) <= Carried(link, sid)
  {
    if k > 0 {
      assert link[..k][1..] == link[1..][..k - 1];
      CarriedPrefix(link[1..], k - 1, sid);
    }
  }

  /** The other way round: what a client's caller reads is a prefix of what its own session on
      the host wrote, although all sessions' frames share the link. */
  lemma ReceivedStreamIsAPrefix(max: nat, events: seq<Event>, sid: Sid)
    ensures var s := Run(max, events);
            sid in s.peers ==> sid in s.outputs && s.peers[sid].received <= s.outputs[sid].written
  {
    RunOut(max, events, sid);
    RunKeeps(max, events);
    var s := Run(max, events);
    if sid in s.peers {
      CarriedPrefix(s.out, s.peers[sid].pos, sid);
      var o := s.outputs[sid];
      assert o.written[..o.sent] <= o.written;
    }
  }
}
