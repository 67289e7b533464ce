/**
  The life of a tunnel session (crates/rivetlink-agent/src/relay/client.rs and
  crates/rivetlink-sdk/src/relay_tunnel.rs): a new one carries bytes both ways, its end frees
  its place, and its client is told exactly once.
 */
module TunnelSessions {
  import opened Common
  import opened Tunnels
  import opened TunnelHost
  import opened TunnelDelivery

  // ---- the end of a session ----

  predicate Pumping(s: State, sid: Sid) {
    sid in s.host.tunnels && s.host.tunnels[sid].pumping
  }

  predicate ClosedOnce(out: seq<Message>, sid: Sid) {
    forall i, j | 0 <= i < j < |out| && out[i] == SessionClosed(sid) :: out[j] != SessionClosed(sid)
  }

  /** A session that was served and whose pump has ended was told so, once, and its client has
      not read past that. */
  predicate Told(s: State, sid: Sid) {
    && (sid in s.host.local && !Pumping(s, sid) ==> SessionClosed(sid) in s.out)
    && ClosedOnce(s.out, sid)
    && (sid in s.peers ==> s.peers[sid].pos <= |s.out| && SessionClosed(sid) !in s.out[..s.peers[sid].pos])
  }

  lemma ClosedMeansEnded(s: State, sid: Sid)
    requires Closing(s, sid)
    ensures SessionClosed(sid) in s.out ==> sid in s.host.local && !Pumping(s, sid)
  {
    if i :| 0 <= i < |s.out| && s.out[i] == SessionClosed(sid) {
      assert ClosedAt(s, sid, i);
    }
  }

  lemma PumpTells(s: State, sid: Sid, x: Sid)
    requires Closing(s, sid) && Told(s, sid)
    ensures Told(DoPump(s, x), sid)
  {
    var s' := DoPump(s, x);
    if Pumping(s, x) {
      assert s'.out[|s.out|] == SessionClosed(x);
      if x == sid {
        ClosedMeansEnded(s, sid);
      } else {
        Appended(s.out, SessionClosed(x), sid);
      }
      if sid in s.peers {
        assert s'.out[..s.peers[sid].pos] == s.out[..s.peers[sid].pos];
      }
    }
  }

  lemma Appended(out: seq<Message>, m: Message, sid: Sid)
    requires m != SessionClosed(sid)
    ensures SessionClosed(sid) in out + [m] <==> SessionClosed(sid) in out
  {
    if SessionClosed(sid) in out {
      var i :| 0 <= i < |out| && out[i] == SessionClosed(sid);
      assert (out + [m])[i] == SessionClosed(sid);
    }
  }

  lemma HostSendsTells(s: State, sid: Sid, x: Sid, n: nat)
    requires Told(s, sid)
    ensures Told(DoHostSends(s, x, n), sid)
  {
    var s' := DoHostSends(s, x, n);
    if s' != s {
      Appended(s.out, Last(s'.out), sid);
      if sid in s.peers {
        assert s'.out[..s.peers[sid].pos] == s.out[..s.peers[sid].pos];
      }
    }
  }

  lemma PeerReadsTells(s: State, sid: Sid, x: Sid)
    requires Told(s, sid)
    ensures Told(DoPeerReads(s, x), sid)
  {
    var s' := DoPeerReads(s, x);
    if x == sid && s' != s {
      var pos := s.peers[sid].pos;
      assert s.out[..pos + 1] == s.out[..pos] + [s.out[pos]];
    }
  }

  /** Steps that leave the host's link and the readers alone and end no pump. */
  lemma OtherTells(s: State, s': State, sid: Sid)
    requires Told(s, sid) && s'.out == s.out
    requires sid in s'.host.local && !Pumping(s', sid) ==> sid in s.host.local && !Pumping(s, sid)
    requires sid in s'.peers ==> if sid in s.peers then s'.peers[sid].pos == s.peers[sid].pos else s'.peers[sid].pos == 0
    ensures Told(s', sid)
  {
    assert s.out[..0] == [];
  }

  lemma ClientTells(s: State, sid: Sid, e: Event)
    requires Told(s, sid) && (e.Ask? || e.Opens? || e.PeerWrites? || e.PeerSends? || e.PeerSignals?)
    ensures Told(Apply(s, e), sid)
  {
    OtherTells(s, Apply(s, e), sid);
  }

  lemma HostTells(s: State, sid: Sid, e: Event)
    requires Told(s, sid) && (e.TakePayload? || e.WriteLocal? || e.TunnelEnds? || e.DirectEnds? || e.HostWrites?)
    ensures Told(Apply(s, e), sid)
  {
    OtherTells(s, Apply(s, e), sid);
  }

  lemma ReadTells(s: State, sid: Sid, timeout: bool, task: nat)
    requires Told(s, sid) && (s.link != [] ==> LinkOk(s, 0))
    ensures Told(DoHostReads(s, timeout, task), sid)
  {
    OtherTells(s, DoHostReads(s, timeout, task), sid);
  }

  lemma StepTells(s: State, sid: Sid, e: Event)
    requires Inv(s) && Closing(s, sid) && Told(s, sid)
    ensures Told(Apply(s, e), sid)
  {
    match e {
      case PumpEnds(x) => PumpTells(s, sid, x);
      case HostSends(x, n) => HostSendsTells(s, sid, x, n);
      case HostReads(timeout, task) => ReadTells(s, sid, timeout, task);
      case PeerReads(x) => PeerReadsTells(s, sid, x);
      case Ask(_) | Opens(_) | PeerWrites(_, _) | PeerSends(_, _) | PeerSignals(_) => ClientTells(s, sid, e);
      case TakePayload(_) | WriteLocal(_, _) | TunnelEnds(_) | DirectEnds(_) | HostWrites(_, _) => HostTells(s, sid, e);
    }
  }

  lemma {:induction false} RunTells(max: nat, events: seq<Event>, sid: Sid)
    ensures Told(Run(max, events), sid)
    decreases |events|
  {
    if events != [] {
      var front := events[..|events| - 1];
      RunTells(max, front, sid);
      RunCloses(max, front, sid);
      RunKeeps(max, front);
      StepTells(Run(max, front), sid, Last(events));
    }
  }

  /** In every run, the host has told a session's client of its end exactly when the session
      was served and its pump has ended, and then once. A client that has read all there is
      for it stopped reading exactly if it was told. */
  lemma ClientIsToldExactly(max: nat, events: seq<Event>, sid: Sid)
    ensures var s := Run(max, events);
            && (SessionClosed(sid) in s.out <==> sid in s.host.local && !Pumping(s, sid))
            && ClosedOnce(s.out, sid)
            && (Through(s, sid) ==> (s.peers[sid].reading <==> SessionClosed(sid) !in s.out))
  {
    var s := Run(max, events);
    RunTells(max, events, sid);
    RunCloses(max, events, sid);
    ClosedMeansEnded(s, sid);
    if Through(s, sid) && s.peers[sid].reading {
      assert s.out[..|s.out|] == s.out;
    }
  }

  /** A place is freed exactly by the end of a tunnel whose pump has ended, or of a direct path,
      and a session that ended leaves nothing behind in the loop. */
  lemma PlacesAreFreedExactly(h: Host, sid: Sid, task: nat)
    ensures var (t, d) := (DoTunnelEnds(h, sid), DoDirectEnds(h, task));
            && Tasks(t) == Tasks(h) - (if sid in h.tunnels && !h.tunnels[sid].pumping then 1 else 0)
            && Tasks(d) == Tasks(h) - (if task in h.directs then 1 else 0)
            && (Tasks(t) < Tasks(h) ==> sid !in t.tunnels && sid !in t.inbound && sid !in t.offered)
  {
    var t, d := DoTunnelEnds(h, sid), DoDirectEnds(h, task);
    TasksAreKeys(h);
    TasksAreKeys(t);
    TasksAreKeys(d);
    if t != h {
      assert t.tunnels.Keys == h.tunnels.Keys - {sid};
    }
    assert d.directs.Keys == h.directs.Keys - {task};
  }

  // ---- a new session carries bytes both ways ----

  /** A new client comes up, and both ends write. */
  function Opened(events: seq<Event>, sid: Sid, data: seq<byte>, reply: seq<byte>): seq<Event> {
    events + [Ask(sid)] + [HostReads(false, 0)] + [Opens(sid)] + [PeerWrites(sid, data)] + [HostWrites(sid, reply)]
  }

  lemma OpenedRuns(max: nat, events: seq<Event>, sid: Sid, data: seq<byte>, reply: seq<byte>)
    ensures Run(max, Opened(events, sid, data, reply))
            == DoHostWrites(DoPeerWrites(DoOpens(DoHostReads(DoAsk(Run(max, events), sid), false, 0), sid), sid, data), sid, reply)
  {
    var asked := events + [Ask(sid)];
    var read := asked + [HostReads(false, 0)];
    var up := read + [Opens(sid)];
    RunAppends(max, events, Ask(sid));
    RunAppends(max, asked, HostReads(false, 0));
    RunAppends(max, read, Opens(sid));
    RunAppends(max, up, PeerWrites(sid, data));
    RunAppends(max, up + [PeerWrites(sid, data)], HostWrites(sid, reply));
  }

  /** In every run, a session not asked for before opens as soon as a place is free. */
  lemma NewSessionOpens(max: nat, events: seq<Event>, sid: Sid, data: seq<byte>, reply: seq<byte>)
    requires var s := Run(max, events);
             sid !in s.requested && s.link == [] && Tasks(s.host) < max
    ensures var s' := Run(max, Opened(events, sid, data, reply));
            Serving(s', sid) && Answering(s', sid) && s'.peers[sid].written == data && s'.outputs[sid].written == reply
  {
    var s := Run(max, events);
    RunKeeps(max, events);
    OpenedRuns(max, events, sid, data, reply);
    var s1 := DoAsk(s, sid);
    assert s1.link == [Request(sid)] && s1.link[1..] == [];
    var s2 := DoHostReads(s1, false, 0);
    assert sid in s2.accepted && sid !in s2.peers && Live(s2.host, sid);
  }

  /** And from there both ends can have all the other one wrote. */
  lemma NewSessionCarries(max: nat, events: seq<Event>, sid: Sid, data: seq<byte>, reply: seq<byte>)
    requires var s := Run(max, events);
             sid !in s.requested && s.link == [] && Tasks(s.host) < max
    ensures exists s :: Leads(max, Opened(events, sid, data, reply), s) && sid in s.host.local && s.host.local[sid] == data
    ensures exists s :: Leads(max, Opened(events, sid, data, reply), s) && sid in s.peers && s.peers[sid].received == reply
  {
    NewSessionOpens(max, events, sid, data, reply);
    OpenTunnelCanDeliver(max, Opened(events, sid, data, reply), sid);
    var more := RunningPumpCanDeliver(max, Opened(events, sid, data, reply), sid);
    assert Leads(max, Opened(events, sid, data, reply), Run(max, Opened(events, sid, data, reply) + more));
  }

  lemma CloseStep(s: State, sid: Sid, timeout: bool, task: nat)
    requires s.link == [SessionClosed(sid)]
    ensures DoHostReads(s, timeout, task).host == DoClose(s.host, sid)
  {
  }

  /** A client that closes its session is served no longer, once the host has read that far. */
  lemma CloseIsRead(max: nat, events: seq<Event>, sid: Sid, timeout: bool, task: nat)
    requires Run(max, events).link == []
    ensures sid !in Run(max, events + [PeerSignals(SessionClosed(sid))] + [HostReads(timeout, task)]).host.inbound
  {
    var signalled := events + [PeerSignals(SessionClosed(sid))];
    RunAppends(max, events, PeerSignals(SessionClosed(sid)));
    RunAppends(max, signalled, HostReads(timeout, task));
    CloseStep(Run(max, signalled), sid, timeout, task);
  }
}
