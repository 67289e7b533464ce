/**
  What a tunnel must deliver (crates/rivetlink-agent/src/relay/client.rs and
  crates/rivetlink-sdk/src/relay_tunnel.rs): when the host may cut a session off, and that
  otherwise all bytes get through, in both directions.
 */
module TunnelDelivery {
  import opened Common
  import opened Tunnels
  import opened TunnelHost

  // ---- when a session is cut off ----

  predicate Stuck(t: Tunnel, timeout: bool) {
    !t.pumping || (|t.queue| >= QUEUE_SLOTS && timeout)
  }

  /** A frame for a session the loop serves is queued while there is room, waits while the queue
      is full, and cuts the session off exactly when its pump has ended or it stayed full. */
  lemma FrameIsHandledExactly(h: Host, sid: Sid, payload: seq<byte>, timeout: bool)
    requires payload != [] && sid in h.inbound && sid in h.tunnels
    ensures var step, t := DoFrame(h, Frame(sid, payload), timeout), h.tunnels[sid];
            && (sid !in step.h.inbound <==> Stuck(t, timeout))
            && (step.waits <==> t.pumping && |t.queue| >= QUEUE_SLOTS && !timeout)
            && (t.pumping && |t.queue| < QUEUE_SLOTS ==> step.h == h.(tunnels := h.tunnels[sid := t.(queue := t.queue + [payload])]))
            && (forall x | x in h.inbound && x != sid :: x in step.h.inbound)
  {
    SplitOfFrame(sid, payload);
  }

  /** Its client closed it, its task ended, or a frame of its own found it stuck. */
  predicate Cuts(s: State, sid: Sid, e: Event) {
    || (e == TunnelEnds(sid) && sid in s.host.tunnels && !s.host.tunnels[sid].pumping)
    || (e.HostReads? && s.link != [] && s.link[0] == SessionClosed(sid))
    || (&& e.HostReads? && s.link != [] && s.link[0].Binary? && SplitTunnelFrame(s.link[0].frame).Some?
        && SplitTunnelFrame(s.link[0].frame).value.0 == sid && sid in s.host.tunnels && Stuck(s.host.tunnels[sid], e.timeout))
  }

  lemma ReadLeavesExactly(s: State, sid: Sid, timeout: bool, task: nat)
    requires HostInv(s.host) && sid in s.host.inbound
    ensures sid !in DoHostReads(s, timeout, task).host.inbound <==> Cuts(s, sid, HostReads(timeout, task))
  {
    if s.link != [] && s.link[0].Binary? {
      FrameLeavesExactly(s.host, sid, s.link[0].frame, timeout);
    }
  }

  lemma FrameLeavesExactly(h: Host, sid: Sid, frame: seq<byte>, timeout: bool)
    requires sid in h.inbound && sid in h.tunnels
    ensures var f := SplitTunnelFrame(frame);
            sid !in DoFrame(h, frame, timeout).h.inbound <==> f.Some? && f.value.0 == sid && Stuck(h.tunnels[sid], timeout)
  {
  }

  /** In every run the host stops serving a session exactly then. */
  lemma SessionLeavesExactly(max: nat, events: seq<Event>, sid: Sid, e: Event)
    requires sid in Run(max, events).host.inbound
    ensures sid !in Apply(Run(max, events), e).host.inbound <==> Cuts(Run(max, events), sid, e)
  {
    RunKeeps(max, events);
    if e.HostReads? {
      ReadLeavesExactly(Run(max, events), sid, e.timeout, e.task);
    }
  }

  /** In every run a request that is read opens a tunnel exactly while tasks are below the
      limit. */
  lemma RequestIsServedExactly(max: nat, events: seq<Event>, sid: Sid, timeout: bool, task: nat)
    requires Run(max, events).link != [] && Run(max, events).link[0] == Request(sid)
    ensures var s := Run(max, events);
            var s' := DoHostReads(s, timeout, task);
            Live(s'.host, sid) && sid in s'.accepted <==> Tasks(s.host) < max
  {
    RunKeeps(max, events);
    assert LinkOk(Run(max, events), 0);
  }

  /** And an offer begins a direct path exactly for a session being served that has none yet,
      while tasks are below the limit. */
  lemma OfferIsTakenExactly(max: nat, events: seq<Event>, sid: Sid, timeout: bool, task: nat)
    requires Run(max, events).link != [] && Run(max, events).link[0] == Offer(sid) && task !in Run(max, events).host.directs
    ensures var h, h' := Run(max, events).host, DoHostReads(Run(max, events), timeout, task).host;
            if sid in h.inbound && Tasks(h) < max && sid !in h.offered
            then h'.paths == h.paths + [sid] && Tasks(h') == Tasks(h) + 1
            else h' == h
  {
    RunKeeps(max, events);
    var h, h' := Run(max, events).host, DoHostReads(Run(max, events), timeout, task).host;
    TasksAreKeys(h);
    TasksAreKeys(h');
    if h' != h {
      assert h'.directs.Keys == h.directs.Keys + {task};
    }
  }

  predicate Breaks(s: State, sid: Sid, e: Event) {
    e == PumpEnds(sid) || Cuts(s, sid, e)
  }

  lemma StaysLive(max: nat, events: seq<Event>, sid: Sid, e: Event)
    requires Live(Run(max, events).host, sid) && !Breaks(Run(max, events), sid, e)
    ensures Live(Apply(Run(max, events), e).host, sid)
  {
    var s := Run(max, events);
    SessionLeavesExactly(max, events, sid, e);
    RunKeeps(max, events);
    if s.link != [] && s.link[0].Request? {
      assert LinkOk(s, 0);
    }
    StillPumping(s, sid, e);
  }

  lemma StillPumping(s: State, sid: Sid, e: Event)
    requires Live(s.host, sid) && e != PumpEnds(sid)
    requires s.link != [] && s.link[0].Request? ==> s.link[0].sid != sid
    ensures sid in Apply(s, e).host.tunnels && Apply(s, e).host.tunnels[sid].pumping
  {
  }

  predicate Unbroken(max: nat, before: seq<Event>, events: seq<Event>, sid: Sid) {
    forall n | 0 <= n < |events| :: !Breaks(Run(max, before + events[..n]), sid, events[n])
  }

  lemma {:induction false} TunnelStaysOpen(max: nat, before: seq<Event>, events: seq<Event>, sid: Sid)
    requires Live(Run(max, before).host, sid) && Unbroken(max, before, events, sid)
    ensures Live(Run(max, before + events).host, sid)
    decreases |events|
  {
    if events == [] {
      assert before + events == before;
    } else {
      var front, e := events[..|events| - 1], Last(events);
      forall n | 0 <= n < |front|
        ensures !Breaks(Run(max, before + front[..n]), sid, front[n])
      {
        assert front[..n] == events[..n] && front[n] == events[n];
      }
      TunnelStaysOpen(max, before, front, sid);
      StaysLive(max, before + front, sid, e);
      assert (before + events)[..|before + events| - 1] == before + front && Last(before + events) == e;
    }
  }

  /** In every run, a session that nothing broke since it was open, and with nothing of it left
      in transit, has received all that its client sent. */
  lemma UnbrokenTunnelHasAll(max: nat, before: seq<Event>, events: seq<Event>, sid: Sid)
    requires Live(Run(max, before).host, sid) && Unbroken(max, before, events, sid)
    requires var s := Run(max, before + events);
             sid in s.peers && Carried(s.link, sid) == [] && sid in s.host.tunnels && s.host.tunnels[sid].queue == [] && s.host.tunnels[sid].writing == []
    ensures var s := Run(max, before + events);
            sid in s.host.local && s.peers[sid].sent <= |s.peers[sid].written| && s.host.local[sid] == s.peers[sid].written[..s.peers[sid].sent]
  {
    TunnelStaysOpen(max, before, events, sid);
    OpenTunnelLosesNothing(max, before + events, sid);
  }

  // ---- an open tunnel can always be drained ----

  /** Some continuation of the run leads to `s`. */
  ghost predicate Leads(max: nat, events: seq<Event>, s: State) {
    exists more :: Run(max, events + more) == s
  }

  lemma LeadsNowhere(max: nat, events: seq<Event>)
    ensures Leads(max, events, Run(max, events))
  {
    assert events + [] == events;
  }

  lemma RunAppends(max: nat, events: seq<Event>, e: Event)
    ensures Run(max, events + [e]) == Apply(Run(max, events), e)
  {
    assert (events + [e])[..|events + [e]| - 1] == events;
  }

  lemma LeadsOn(max: nat, events: seq<Event>, s: State, e: Event)
    requires Leads(max, events, s)
    ensures Leads(max, events, Apply(s, e))
  {
    var more :| Run(max, events + more) == s;
    Associates(events, more, [e]);
    RunAppends(max, events + more, e);
    assert Run(max, events + (more + [e])) == Apply(s, e);
  }

  /** Everything the session's client has sent is in its stream. */
  predicate Drained(s: State, sid: Sid) {
    && sid in s.peers && sid in s.host.local && s.peers[sid].sent <= |s.peers[sid].written|
    && s.host.local[sid] == s.peers[sid].written[..s.peers[sid].sent]
  }

  predicate Serving(s: State, sid: Sid) {
    Live(s.host, sid) && sid in s.peers && sid in s.host.local && SessionClosed(sid) !in s.link
  }

  predicate Pumping(s: State, sid: Sid) {
    sid in s.host.tunnels && s.host.tunnels[sid].pumping && sid in s.host.local
  }

  /** The link up to the session's close. */
  function Before(link: seq<Message>, sid: Sid): seq<Message> {
    if link == [] || link[0] == SessionClosed(sid) then [] else [link[0]] + Before(link[1..], sid)
  }

  /** What the session's stream has and is still to get: all that its pump was handed, and, as
      long as it is served, all its client sent before closing. */
  function Owed(s: State, sid: Sid): seq<byte> {
    Delivered(s.host, sid) + if sid in s.host.inbound then Carried(Before(s.link, sid), sid) else []
  }

  /** The step that brings the session's oldest bytes nearer. */
  function Next(s: State, sid: Sid): Event
    requires sid in s.host.tunnels
  {
    var t := s.host.tunnels[sid];
    if t.writing != [] then WriteLocal(sid, |t.writing|) else if t.queue != [] then TakePayload(sid) else HostReads(true, 0)
  }

  function Load(h: Host, sid: Sid): nat
    requires sid in h.tunnels
  {
    2 * |h.tunnels[sid].queue| + if h.tunnels[sid].writing != [] then 1 else 0
  }

  lemma PumpMoves(s: State, sid: Sid)
    requires Pumping(s, sid) && Load(s.host, sid) > 0
    ensures var s' := Apply(s, Next(s, sid));
            && Pumping(s', sid) && s'.link == s.link && s'.peers == s.peers && s'.host.inbound == s.host.inbound
            && Load(s'.host, sid) < Load(s.host, sid) && Delivered(s'.host, sid) == Delivered(s.host, sid)
  {
    var t := s.host.tunnels[sid];
    if t.writing != [] {
      WriteLocalShrinks(s.host, sid, |t.writing|, sid);
    } else {
      TakePayloadShrinks(s.host, sid, sid);
    }
    assert Shrinks(s.host, Apply(s, Next(s, sid)).host, sid);
  }

  /** The session goes on and got `more`. */
  predicate Gets(h: Host, h': Host, sid: Sid, more: seq<byte>) {
    Live(h', sid) && sid in h'.local && Delivered(h', sid) == Delivered(h, sid) + more
  }

  lemma FrameMoves(h: Host, frame: seq<byte>, sid: Sid)
    requires Live(h, sid) && sid in h.local && Load(h, sid) == 0 && |frame| > SID_LEN
    ensures var step := DoFrame(h, frame, true);
            !step.waits && Gets(h, step.h, sid, Payload(Binary(frame), sid))
  {
    var x: Sid, payload := frame[..SID_LEN], frame[SID_LEN..];
    assert frame == Frame(x, payload);
    StripOfFrame(x, payload, sid);
    if x == sid {
      QueuedDelivers(h, sid, payload);
    }
  }

  lemma SignalMoves(s: State, sid: Sid)
    requires Live(s.host, sid) && sid in s.host.local && s.link != [] && !s.link[0].Binary? && s.link[0] != SessionClosed(sid) && LinkOk(s, 0)
    ensures Gets(s.host, DoHostReads(s, true, 0).host, sid, [])
  {
    if s.link[0].Request? {
      AcceptedDelivers(s.host, s.link[0].sid, sid);
    }
  }

  lemma ReadOwes(s: State, s': State, sid: Sid)
    requires Live(s.host, sid) && Before(s.link, sid) != [] && s'.link == s.link[1..] && Gets(s.host, s'.host, sid, Payload(s.link[0], sid))
    ensures Owed(s', sid) == Owed(s, sid)
  {
    var d, c, p := Delivered(s.host, sid), Carried(Before(s.link[1..], sid), sid), Payload(s.link[0], sid);
    assert Before(s.link, sid)[1..] == Before(s.link[1..], sid);
    assert d + (p + c) == (d + p) + c;
  }

  lemma ReadGets(s: State, sid: Sid)
    requires Live(s.host, sid) && sid in s.host.local && Load(s.host, sid) == 0 && s.link != [] && s.link[0] != SessionClosed(sid) && LinkOk(s, 0)
    ensures var s' := DoHostReads(s, true, 0);
            s'.link == s.link[1..] && s'.peers == s.peers && Gets(s.host, s'.host, sid, Payload(s.link[0], sid))
  {
    if s.link[0].Binary? {
      FrameMoves(s.host, s.link[0].frame, sid);
    } else {
      SignalMoves(s, sid);
    }
  }

  /** From `s` to `q` the session's bytes got nearer to its stream. */
  predicate Nearer(s: State, q: State, sid: Sid) {
    && Pumping(s, sid) && Pumping(q, sid) && q.peers == s.peers && Owed(q, sid) == Owed(s, sid)
    && (|q.link| < |s.link| || (q.link == s.link && Load(q.host, sid) < Load(s.host, sid)))
  }

  lemma DrainMoves(s: State, sid: Sid)
    requires Inv(s) && Pumping(s, sid) && (Load(s.host, sid) > 0 || (sid in s.host.inbound && Before(s.link, sid) != []))
    ensures Nearer(s, Apply(s, Next(s, sid)), sid)
  {
    if Load(s.host, sid) > 0 {
      PumpMoves(s, sid);
    } else {
      assert LinkOk(s, 0);
      ReadGets(s, sid);
      ReadOwes(s, DoHostReads(s, true, 0), sid);
    }
  }

  lemma NothingMore(s: State, sid: Sid)
    requires Pumping(s, sid) && Load(s.host, sid) == 0 && (sid in s.host.inbound ==> Before(s.link, sid) == [])
    ensures s.host.local[sid] == Owed(s, sid)
  {
    assert Concat([]) == [] && Carried([], sid) == [];
  }

  lemma StepsOn(max: nat, events: seq<Event>, s: State, sid: Sid) returns (q: State)
    requires Leads(max, events, s) && Inv(s) && Pumping(s, sid)
    requires Load(s.host, sid) > 0 || (sid in s.host.inbound && Before(s.link, sid) != [])
    ensures Leads(max, events, q) && Inv(q) && Nearer(s, q, sid)
  {
    var e := Next(s, sid);
    q := Apply(s, e);
    DrainMoves(s, sid);
    StepKeeps(s, e);
    LeadsOn(max, events, s, e);
  }

  lemma {:induction false} Drains(max: nat, events: seq<Event>, s: State, sid: Sid) returns (s': State)
    requires Leads(max, events, s) && Inv(s) && Pumping(s, sid)
    ensures Leads(max, events, s') && sid in s'.host.local && s'.host.local[sid] == Owed(s, sid) && s'.peers == s.peers
    decreases |s.link|, Load(s.host, sid)
  {
    s' := s;
    if Load(s.host, sid) > 0 || (sid in s.host.inbound && Before(s.link, sid) != []) {
      var q := StepsOn(max, events, s, sid);
      s' := Drains(max, events, q, sid);
    } else {
      NothingMore(s, sid);
    }
  }

  lemma {:induction false} BeforeIsAll(link: seq<Message>, sid: Sid)
    requires SessionClosed(sid) !in link
    ensures Before(link, sid) == link && Before(link + [SessionClosed(sid)], sid) == link
  {
    if link == [] {
      assert link + [SessionClosed(sid)] == [SessionClosed(sid)];
    } else {
      BeforeIsAll(link[1..], sid);
      assert link[0] in link;
      assert (link + [SessionClosed(sid)])[1..] == link[1..] + [SessionClosed(sid)];
    }
  }

  lemma ServingOwesAll(s: State, sid: Sid)
    requires Inv(s) && Serving(s, sid)
    ensures s.peers[sid].sent <= |s.peers[sid].written| && Owed(s, sid) == s.peers[sid].written[..s.peers[sid].sent]
    ensures Owed(s.(link := s.link + [SessionClosed(sid)]), sid) == Owed(s, sid)
  {
    assert Flow(s, sid);
    BeforeIsAll(s.link, sid);
  }

  /** From every reachable state, whatever is in transit for whomever, and whether its client
      has closed it or not: a session whose pump runs can have written to its stream all that
      was queued for it and, while it is served, all that is on the link before its close. If
      there is no close, that is everything the client has sent. */
  lemma OpenTunnelCanDrain(max: nat, events: seq<Event>, sid: Sid)
    requires Pumping(Run(max, events), sid)
    ensures exists s :: && Leads(max, events, s) && s.peers == Run(max, events).peers
                        && sid in s.host.local && s.host.local[sid] == Owed(Run(max, events), sid)
                        && (Serving(Run(max, events), sid) ==> Drained(s, sid))
  {
    RunKeeps(max, events);
    LeadsNowhere(max, events);
    if Serving(Run(max, events), sid) {
      ServingOwesAll(Run(max, events), sid);
    }
    var s := Drains(max, events, Run(max, events), sid);
  }

  /** A client that has sent all it wrote and then closes can still have all of it delivered. */
  lemma ClosedTunnelCanDeliver(max: nat, events: seq<Event>, sid: Sid)
    requires var s := Run(max, events);
             Serving(s, sid) && s.peers[sid].sent == |s.peers[sid].written|
    ensures exists s :: && Leads(max, events + [PeerSignals(SessionClosed(sid))], s)
                        && sid in s.host.local && s.host.local[sid] == Run(max, events).peers[sid].written
  {
    var s, closed := Run(max, events), events + [PeerSignals(SessionClosed(sid))];
    assert closed[..|closed| - 1] == events;
    RunKeeps(max, events);
    ServingOwesAll(s, sid);
    OpenTunnelCanDrain(max, closed, sid);
    assert s.peers[sid].written[..|s.peers[sid].written|] == s.peers[sid].written;
  }

  function Piece(p: nat, length: nat): nat
    requires p <= length
  {
    if length - p < MAX_TUNNEL_PAYLOAD then length - p else MAX_TUNNEL_PAYLOAD
  }

  lemma PeerSendMoves(s: State, sid: Sid)
    requires Serving(s, sid) && s.peers[sid].sent < |s.peers[sid].written|
    ensures var s' := DoPeerSends(s, sid, Piece(s.peers[sid].sent, |s.peers[sid].written|));
            Serving(s', sid) && s'.peers[sid].written == s.peers[sid].written && s'.peers[sid].sent > s.peers[sid].sent
  {
  }

  lemma {:induction false} SendsAll(max: nat, events: seq<Event>, s: State, sid: Sid) returns (s': State)
    requires Leads(max, events, s) && Inv(s) && Serving(s, sid)
    ensures Leads(max, events, s') && Inv(s') && Serving(s', sid)
    ensures s'.peers[sid].written == s.peers[sid].written && s'.peers[sid].sent == |s.peers[sid].written|
    decreases |s.peers[sid].written| - s.peers[sid].sent
  {
    s' := s;
    var p := s.peers[sid];
    assert p.sent <= |p.written| by {
      assert Flow(s, sid);
    }
    if p.sent < |p.written| {
      var e := PeerSends(sid, Piece(p.sent, |p.written|));
      PeerSendMoves(s, sid);
      StepKeeps(s, e);
      LeadsOn(max, events, s, e);
      s' := SendsAll(max, events, Apply(s, e), sid);
    }
  }

  /** And everything that client has written, sent yet or not. */
  lemma OpenTunnelCanDeliver(max: nat, events: seq<Event>, sid: Sid)
    requires Serving(Run(max, events), sid)
    ensures exists s :: Leads(max, events, s) && sid in s.host.local && s.host.local[sid] == Run(max, events).peers[sid].written
  {
    RunKeeps(max, events);
    LeadsNowhere(max, events);
    var q := SendsAll(max, events, Run(max, events), sid);
    ServingOwesAll(q, sid);
    var s := Drains(max, events, q, sid);
    assert s.peers[sid].written[..|s.peers[sid].written|] == s.peers[sid].written;
  }

  // ---- the way back ----

  /** A session's close is its last message, and a client that stopped reading stopped there. */
  predicate Closing(s: State, sid: Sid) {
    && (forall i | 0 <= i < |s.out| && s.out[i] == SessionClosed(sid) :: ClosedAt(s, sid, i))
    && (sid in s.peers && !s.peers[sid].reading ==> s.peers[sid].pos < |s.out| && s.out[s.peers[sid].pos] == SessionClosed(sid))
  }

  predicate ClosedAt(s: State, sid: Sid, i: nat)
    requires i <= |s.out|
  {
    sid in s.host.local && (sid in s.host.tunnels ==> !s.host.tunnels[sid].pumping) && Carried(s.out[i..], sid) == []
  }

  lemma SentCloses(s: State, m: Message, sid: Sid, i: nat)
    requires i < |s.out| && Carried(s.out[i..], sid) == [] && Payload(m, sid) == []
    ensures Carried((s.out + [m])[i..], sid) == []
  {
    assert (s.out + [m])[i..] == s.out[i..] + [m];
    CarriedAppend(s.out[i..], m, sid);
  }

  lemma PumpEndsCloses(s: State, sid: Sid, x: Sid)
    requires HostInv(s.host) && Closing(s, sid)
    ensures Closing(DoPump(s, x), sid)
  {
    var s' := DoPump(s, x);
    forall i | 0 <= i < |s'.out| && s'.out[i] == SessionClosed(sid)
      ensures ClosedAt(s', sid, i)
    {
      if i < |s.out| {
        assert ClosedAt(s, sid, i);
        if s' != s {
          SentCloses(s, SessionClosed(x), sid, i);
        }
      } else {
        assert s'.out[i..] == [SessionClosed(x)];
        assert Carried([SessionClosed(x)][1..], sid) == [];
      }
    }
  }

  lemma HostSendsCloses(s: State, sid: Sid, x: Sid, n: nat)
    requires Closing(s, sid)
    ensures Closing(DoHostSends(s, x, n), sid)
  {
    var s' := DoHostSends(s, x, n);
    if s' != s {
      var o := s.outputs[x];
      var chunk := o.written[o.sent..o.sent + n];
      StripOfFrame(x, chunk, sid);
      forall i | 0 <= i < |s'.out| && s'.out[i] == SessionClosed(sid)
        ensures ClosedAt(s', sid, i)
      {
        assert ClosedAt(s, sid, i);
        SentCloses(s, Binary(Frame(x, chunk)), sid, i);
      }
    }
  }

  /** Steps that leave the host's link alone and restart no pump. */
  lemma OtherCloses(s: State, s': State, sid: Sid)
    requires Closing(s, sid) && s'.out == s.out && s.host.local.Keys <= s'.host.local.Keys
    requires sid in s.host.local && sid in s'.host.tunnels && s'.host.tunnels[sid].pumping ==> sid in s.host.tunnels && s.host.tunnels[sid].pumping
    requires sid in s'.peers && !s'.peers[sid].reading ==> s'.peers[sid].pos < |s.out| && s.out[s'.peers[sid].pos] == SessionClosed(sid)
    ensures Closing(s', sid)
  {
    forall i | 0 <= i < |s'.out| && s'.out[i] == SessionClosed(sid)
      ensures ClosedAt(s', sid, i)
    {
      assert ClosedAt(s, sid, i);
    }
  }

  lemma ClientCloses(s: State, sid: Sid, e: Event)
    requires Closing(s, sid) && (e.Ask? || e.Opens? || e.PeerWrites? || e.PeerSends? || e.PeerSignals?)
    ensures Closing(Apply(s, e), sid)
  {
    OtherCloses(s, Apply(s, e), sid);
  }

  lemma PeerReadsCloses(s: State, sid: Sid, x: Sid)
    requires Closing(s, sid)
    ensures Closing(DoPeerReads(s, x), sid)
  {
    OtherCloses(s, DoPeerReads(s, x), sid);
  }

  lemma HostCloses(s: State, sid: Sid, e: Event)
    requires Closing(s, sid) && (e.TakePayload? || e.WriteLocal? || e.TunnelEnds? || e.DirectEnds? || e.HostWrites?)
    ensures Closing(Apply(s, e), sid)
  {
    OtherCloses(s, Apply(s, e), sid);
  }

  lemma ReadCloses(s: State, sid: Sid, timeout: bool, task: nat)
    requires Closing(s, sid) && (s.link != [] ==> LinkOk(s, 0))
    ensures Closing(DoHostReads(s, timeout, task), sid)
  {
    OtherCloses(s, DoHostReads(s, timeout, task), sid);
  }

  lemma StepCloses(s: State, sid: Sid, e: Event)
    requires Inv(s) && Closing(s, sid)
    ensures Closing(Apply(s, e), sid)
  {
    match e {
      case PumpEnds(x) => PumpEndsCloses(s, sid, x);
      case HostSends(x, n) => HostSendsCloses(s, sid, x, n);
      case HostReads(timeout, task) => ReadCloses(s, sid, timeout, task);
      case PeerReads(x) => PeerReadsCloses(s, sid, x);
      case Ask(_) | Opens(_) | PeerWrites(_, _) | PeerSends(_, _) | PeerSignals(_) => ClientCloses(s, sid, e);
      case TakePayload(_) | WriteLocal(_, _) | TunnelEnds(_) | DirectEnds(_) | HostWrites(_, _) => HostCloses(s, sid, e);
    }
  }

  lemma {:induction false} RunCloses(max: nat, events: seq<Event>, sid: Sid)
    ensures Closing(Run(max, events), sid)
    decreases |events|
  {
    if events != [] {
      var front := events[..|events| - 1];
      RunCloses(max, front, sid);
      RunKeeps(max, front);
      StepCloses(Run(max, front), sid, Last(events));
    }
  }

  lemma {:induction false} CarriedSplits(link: seq<Message>, k: nat, sid: Sid)
    requires k <= |link|
    ensures Carried(link, sid) == Carried(link[..k], sid) + Carried(link[k..], sid)
  {
    if k == 0 {
      assert link[..0] == [] && link[0..] == link;
    } else {
      CarriedSplits(link[1..], k - 1, sid);
      assert link[..k][1..] == link[1..][..k - 1] && link[k..] == link[1..][k - 1..];
    }
  }

  /** In every run, a client that has read the link to its end, or to the close of its session,
      has received all that the session's pump sent. */
  lemma ReaderHasAll(max: nat, events: seq<Event>, sid: Sid)
    requires var s := Run(max, events);
             Through(s, sid)
    ensures var s := Run(max, events);
            sid in s.outputs && s.outputs[sid].sent <= |s.outputs[sid].written|
            && s.peers[sid].received == s.outputs[sid].written[..s.outputs[sid].sent]
  {
    var s := Run(max, events);
    RunOut(max, events, sid);
    RunKeeps(max, events);
    RunCloses(max, events, sid);
    var pos := s.peers[sid].pos;
    CarriedSplits(s.out, pos, sid);
    if pos == |s.out| {
      assert s.out[pos..] == [];
    } else {
      assert ClosedAt(s, sid, pos);
    }
  }

  predicate Through(s: State, sid: Sid) {
    sid in s.peers && (s.peers[sid].pos == |s.out| || !s.peers[sid].reading)
  }

  lemma ReadGoesOn(s: State, sid: Sid)
    requires sid in s.peers && s.peers[sid].pos <= |s.out| && !Through(s, sid)
    ensures var s' := DoPeerReads(s, sid);
            && sid in s'.peers && s'.out == s.out && s'.outputs == s.outputs
            && (s'.peers[sid].pos == s.peers[sid].pos + 1 || (s'.peers[sid].pos == s.peers[sid].pos && Through(s', sid)))
  {
  }

  lemma {:induction false} CatchesUp(max: nat, events: seq<Event>, s: State, sid: Sid) returns (s': State)
    requires Leads(max, events, s) && sid in s.peers && s.peers[sid].pos <= |s.out|
    ensures Leads(max, events, s') && Through(s', sid) && s'.out == s.out && s'.outputs == s.outputs
    decreases |s.out| - s.peers[sid].pos, s.peers[sid].reading
  {
    s' := s;
    if !Through(s, sid) {
      ReadGoesOn(s, sid);
      LeadsOn(max, events, s, PeerReads(sid));
      s' := CatchesUp(max, events, DoPeerReads(s, sid), sid);
    }
  }

  /** And it can always read that far. */
  lemma ReaderCanCatchUp(max: nat, events: seq<Event>, sid: Sid)
    requires sid in Run(max, events).peers
    ensures exists s :: Leads(max, events, s) && Through(s, sid) && s.outputs == Run(max, events).outputs && s.out == Run(max, events).out
  {
    RunOut(max, events, sid);
    LeadsNowhere(max, events);
    var s := CatchesUp(max, events, Run(max, events), sid);
  }

  /** A session with a pump to send for it and a client to read. */
  predicate Answering(s: State, sid: Sid) {
    sid in s.host.tunnels && s.host.tunnels[sid].pumping && sid in s.peers && sid in s.outputs
  }

  lemma HostSendMoves(s: State, sid: Sid)
    requires Answering(s, sid) && s.outputs[sid].sent < |s.outputs[sid].written|
    ensures var s' := DoHostSends(s, sid, Piece(s.outputs[sid].sent, |s.outputs[sid].written|));
            Answering(s', sid) && s'.outputs[sid].written == s.outputs[sid].written && s'.outputs[sid].sent > s.outputs[sid].sent
  {
  }

  lemma {:induction false} HostSendsAll(max: nat, events: seq<Event>, sid: Sid) returns (more: seq<Event>)
    requires Answering(Run(max, events), sid)
    ensures var (s, s') := (Run(max, events), Run(max, events + more));
            Answering(s', sid) && s'.outputs[sid].written == s.outputs[sid].written && s'.outputs[sid].sent == |s.outputs[sid].written|
    decreases |Run(max, events).outputs[sid].written| - Run(max, events).outputs[sid].sent
  {
    var s := Run(max, events);
    RunOut(max, events, sid);
    if s.outputs[sid].sent < |s.outputs[sid].written| {
      var e := HostSends(sid, Piece(s.outputs[sid].sent, |s.outputs[sid].written|));
      HostSendMoves(s, sid);
      assert (events + [e])[..|events|] == events;
      var rest := HostSendsAll(max, events + [e], sid);
      more := [e] + rest;
      assert events + more == events + [e] + rest;
    } else {
      more := [];
      assert events + more == events;
    }
  }

  lemma CanReadAll(max: nat, events: seq<Event>, sid: Sid) returns (more: seq<Event>)
    requires sid in Run(max, events).peers
    ensures Through(Run(max, events + more), sid) && Run(max, events + more).outputs == Run(max, events).outputs
  {
    ReaderCanCatchUp(max, events, sid);
    var s :| Leads(max, events, s) && Through(s, sid) && s.outputs == Run(max, events).outputs;
    more :| Run(max, events + more) == s;
  }

  /** From every reachable state, a session whose pump runs can have all it ever wrote read by
      its client. */
  lemma RunningPumpCanDeliver(max: nat, events: seq<Event>, sid: Sid) returns (more: seq<Event>)
    requires Answering(Run(max, events), sid)
    ensures var s' := Run(max, events + more);
            sid in s'.peers && s'.peers[sid].received == Run(max, events).outputs[sid].written
  {
    var sends := HostSendsAll(max, events, sid);
    var rest := CanReadAll(max, events + sends, sid);
    more := sends + rest;
    assert events + more == events + sends + rest;
    ReaderHasAll(max, events + more, sid);
    var written := Run(max, events).outputs[sid].written;
    assert written[..|written|] == written;
  }
}
