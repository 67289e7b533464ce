/**
  When the worker refuses to start a desktop stream (worker.rs and broker.rs of
  rivetlink-agent): a stop lowers the broker's flag before its request is written, so a claim
  can overtake it.
 */
module Refusals {
  import opened Common
  import opened Desktop
  import opened EndNotices

  /** In every run the worker refuses a start exactly when a stream task is still running. */
  lemma StartIsRefusedExactly(events: seq<Event>)
    requires var s := Run(Init, events);
             s.w.loop.Idle? && s.toWorker != [] && s.toWorker[0].StartStream?
    ensures var s := Run(Init, events);
            DoTake(s.w, s.toWorker[0]).reply == Some(Refused) <==> exists g | g in s.w.forwarders :: Runs(s.w, g)
  {
    var s := Run(Init, events);
    RunFlag(events);
    RunKeeps(events);
    if s.w.active {
      assert Runs(s.w, |s.w.starts| - 1);
    } else {
      forall g | g in s.w.forwarders
        ensures !Runs(s.w, g)
      {
        assert StreamOk(s.w, g);
      }
    }
  }

  /** In every run a refused start belongs to a claim, which fails with the desktop already
      taken over from its last owner. */
  lemma RefusedClaimHasTakenOver(events: seq<Event>, t: nat)
    requires var b := Run(Init, events).b;
             && t in b.tasks && b.tasks[t].next.Await? && b.tasks[t].next.request.StartStream?
             && b.responses != [] && b.responses[0].Refused?
    ensures var b := Run(Init, events).b;
            var id, after := b.tasks[t].next.request.id, DoStep(b, t, false);
            && b.tasks[t].call.Claim? && after.tasks[t].next == Over(false)
            && after.owner == id && id !in after.views && !after.active && after.claimLock.None?
  {
    SwitchAlwaysRestarts(events, t);
    RunKeeps(events);
    assert TaskOk(Run(Init, events).b, t);
  }

  // ---- a start that cannot be refused ----

  predicate Quiet(w: Worker) {
    NoneRuns(w) && !w.active
  }

  predicate Stops(b: Broker, u: nat) {
    u in b.tasks && Stopping(b.tasks[u].next)
  }

  /** A stop's request is being written or answered. */
  predicate StopHolds(b: Broker) {
    b.requestLock.Some? && Stops(b, b.requestLock.value)
  }

  /** The stop at place `i` in line comes before `t`. */
  predicate StopAt(b: Broker, t: nat, i: nat) {
    i < |b.waiters| && Stops(b, b.waiters[i]) && t !in b.waiters[..i + 1]
  }

  predicate StopAhead(b: Broker, t: nat) {
    exists i | 0 <= i < |b.waiters| :: StopAt(b, t, i)
  }

  /** A stop will be served before `t`. */
  predicate StopFirst(b: Broker, t: nat) {
    StopHolds(b) || StopAhead(b, t)
  }

  /** The start of `t` will not be refused. */
  predicate Spared(s: State, t: nat) {
    t in s.b.tasks &&
    match s.b.tasks[t].next
    case Subscribe(_) => Quiet(s.w) || StopFirst(s.b, t)
    case Queue(StartStream(_), _) => Quiet(s.w) || StopFirst(s.b, t)
    case Write(StartStream(_), _) => Quiet(s.w)
    case Await(StartStream(_), _) => if s.toWorker != [] then Quiet(s.w) else StartedOnly(s)
    case Over(_) => true
    case _ => false
  }

  /** While `t` is starting, no other call has a start on its way. */
  lemma NoOtherStart(s: State, f: Flight, t: nat)
    requires Locks(s.b) && PairedAt(s, f) && t in s.b.tasks && HoldsClaim(s.b.tasks[t]) && !HoldsRequest(s.b.tasks[t])
    ensures Awaited(s.b) ==> !Outstanding(s.b).StartStream?
  {
    if Awaited(s.b) {
      assert TaskOk(s.b, t) && TaskOk(s.b, s.b.requestLock.value);
    }
  }

  predicate ByWorker(e: Event) {
    !e.Step? && !e.Begin? && !e.Read?
  }

  lemma QuietStays(s: State, e: Event)
    requires Quiet(s.w) && ByWorker(e) && (e.Take? && s.toWorker != [] ==> !s.toWorker[0].StartStream?)
    ensures Quiet(Apply(s, e).w)
  {
  }

  lemma WorkerSpares(s: State, f: Flight, e: Event, t: nat)
    requires Locks(s.b) && Streams(s.w) && PairedAt(s, f) && Spared(s, t) && TaskOk(s.b, t) && ByWorker(e)
    ensures Spared(Apply(s, e), t)
  {
    var next := s.b.tasks[t].next;
    if next.Await? {
      OnlyAwait(s, f, t);
      if s.toWorker != [] && !e.Take? {
        QuietStays(s, e);
      }
    } else if !next.Over? && Quiet(s.w) {
      if !next.Write? {
        NoOtherStart(s, f, t);
      }
      QuietStays(s, e);
    }
  }

  lemma StopStaysFirst(b: Broker, b': Broker, t: nat)
    requires StopFirst(b, t) && b'.waiters == b.waiters && b'.requestLock == b.requestLock
    requires forall u | u in b.tasks :: u in b'.tasks && b'.tasks[u] == b.tasks[u]
    ensures StopFirst(b', t)
  {
    if StopAhead(b, t) {
      var i :| 0 <= i < |b.waiters| && StopAt(b, t, i);
      assert StopAt(b', t, i);
    }
  }

  lemma ReadSpares(s: State, t: nat)
    requires Spared(s, t)
    ensures Spared(Apply(s, Read), t)
  {
    if s.toBroker != [] {
      if StopFirst(s.b, t) {
        StopStaysFirst(s.b, DoRead(s.b, s.toBroker[0]), t);
      }
      var m := s.toBroker[1..];
      assert forall k | 0 <= k < |m| :: m[k] == s.toBroker[k + 1];
    }
  }

  lemma BeginSpares(s: State, t: nat, u: nat, call: Call)
    requires Spared(s, t)
    ensures Spared(Apply(s, Begin(u, call)), t)
  {
    if StopFirst(s.b, t) {
      StopStaysFirst(s.b, DoBegin(s.b, u, call), t);
    }
  }

  /** A start goes to the end of the line, so what is ahead stays ahead; and it gets the lock
      only with nothing ahead. */
  lemma OwnQueueSpares(b: Broker, t: nat, request: Request, sub: nat)
    requires Line(b) && t in b.tasks && b.tasks[t].next == Queue(request, sub) && StopFirst(b, t)
    ensures DoQueue(b, t, request, sub).tasks == b.tasks && StopFirst(DoQueue(b, t, request, sub), t)
  {
    var b' := DoQueue(b, t, request, sub);
    if StopAhead(b, t) {
      var i :| 0 <= i < |b.waiters| && StopAt(b, t, i);
      assert b.waiters[0] in b.waiters[..i + 1];
      assert b'.waiters[..i + 1] == b.waiters[..i + 1];
      assert StopAt(b', t, i);
    }
  }

  lemma OwnStepSpares(s: State, f: Flight, t: nat, expired: bool)
    requires Line(s.b) && PairedAt(s, f) && Spared(s, t) && TaskOk(s.b, t)
    ensures Spared(DoCall(s, t, expired), t)
  {
    var next := s.b.tasks[t].next;
    if next.Queue? && !Quiet(s.w) {
      OwnQueueSpares(s.b, t, next.request, next.sub);
    } else if next.Subscribe? && !Quiet(s.w) {
      var b' := DoStep(s.b, t, expired);
      assert b'.waiters == s.b.waiters;
      if StopAhead(s.b, t) {
        var i :| 0 <= i < |s.b.waiters| && StopAt(s.b, t, i);
        assert s.b.waiters[i] != t;
        assert StopAt(b', t, i);
      }
    }
  }

  /** When the stop that holds the lock returns, nothing runs. */
  lemma StopReturns(s: State, f: Flight, u: nat, expired: bool)
    requires Locks(s.b) && PairedAt(s, f) && StopHolds(s.b) && u in s.b.tasks
    ensures StopHolds(DoCall(s, u, expired).b) || Quiet(s.w)
  {
    var v := s.b.requestLock.value;
    assert TaskOk(s.b, u) && TaskOk(s.b, v);
    StepIsOwn(s.b, u, expired);
    if u == v && s.b.tasks[u].next.Await? && s.b.responses != [] {
      OnlyAwait(s, f, u);
    }
  }

  lemma OthersMoveUp(b: Broker, t: nat, u: nat, request: Request, sub: nat)
    requires Line(b) && u in b.tasks && u != t && b.tasks[u].next == Queue(request, sub) && StopAhead(b, t)
    ensures StopFirst(DoQueue(b, u, request, sub), t)
  {
    var b' := DoQueue(b, u, request, sub);
    var i :| 0 <= i < |b.waiters| && StopAt(b, t, i);
    if b'.requestLock == Some(u) && b.requestLock.None? {
      assert b'.waiters == b.waiters[1..];
      if i > 0 {
        assert b'.waiters[i - 1] == b.waiters[i] != b.waiters[0];
        assert forall x | x in b'.waiters[..i] :: x in b.waiters[..i + 1];
        assert StopAt(b', t, i - 1);
      }
    } else {
      assert b'.waiters[..i + 1] == b.waiters[..i + 1];
      assert StopAt(b', t, i);
    }
  }

  /** What is ahead of `t` in line stays ahead until it has the lock. */
  lemma OthersKeepStopAhead(b: Broker, t: nat, u: nat, expired: bool)
    requires Line(b) && u in b.tasks && u != t && TaskOk(b, u) && Granted(b.views, b.owner) && StopAhead(b, t)
    ensures StopFirst(DoStep(b, u, expired), t)
  {
    if b.tasks[u].next.Queue? {
      OthersMoveUp(b, t, u, b.tasks[u].next.request, b.tasks[u].next.sub);
    } else {
      var b' := DoStep(b, u, expired);
      StepMovesLine(b, u, expired);
      StepIsOwn(b, u, expired);
      var i :| 0 <= i < |b.waiters| && StopAt(b, t, i);
      assert b.waiters[i] != u;
      assert StopAt(b', t, i);
    }
  }

  lemma OtherStepSpares(s: State, f: Flight, t: nat, u: nat, expired: bool)
    requires Locks(s.b) && Line(s.b) && PairedAt(s, f) && Spared(s, t) && u in s.b.tasks && u != t
    ensures Spared(DoCall(s, u, expired), t)
  {
    assert TaskOk(s.b, t) && TaskOk(s.b, u);
    StepIsOwn(s.b, u, expired);
    StepSameStreams(s, u, expired);
    if StopHolds(s.b) {
      StopReturns(s, f, u, expired);
    }
    if StopAhead(s.b, t) {
      OthersKeepStopAhead(s.b, t, u, expired);
    }
    if s.b.tasks[t].next.Await? {
      OtherStepEffect(s.b, u, expired);
    }
  }

  lemma StepSpares(s: State, e: Event, t: nat)
    requires Inv(s) && Spared(s, t)
    ensures Spared(Apply(s, e), t)
  {
    var f :| PairedAt(s, f);
    assert TaskOk(s.b, t);
    if e.Begin? {
      BeginSpares(s, t, e.t, e.call);
    } else if e.Read? {
      ReadSpares(s, t);
    } else if !e.Step? {
      WorkerSpares(s, f, e, t);
    } else if e.t == t {
      OwnStepSpares(s, f, t, e.expired);
    } else if e.t in s.b.tasks {
      OtherStepSpares(s, f, t, e.t, e.expired);
    }
  }

  lemma {:induction false} RunSpares(s: State, events: seq<Event>, t: nat)
    requires Inv(s) && Spared(s, t)
    ensures Inv(Run(s, events)) && Spared(Run(s, events), t)
    decreases |events|
  {
    if events != [] {
      var front := Run(s, events[..|events| - 1]);
      RunSpares(s, events[..|events| - 1], t);
      StepKeeps(front, Last(events));
      StepSpares(front, Last(events), t);
    }
  }

  predicate RefusedAt(b: Broker, t: nat) {
    t in b.tasks && b.tasks[t].next.Await? && b.tasks[t].next.request.StartStream? && b.responses != [] && b.responses[0].Refused?
  }

  ghost predicate CanBeRefused(s: State, t: nat) {
    exists after :: RefusedAt(Run(s, after).b, t)
  }

  lemma SparedCannotBeRefused(s: State, t: nat)
    requires Inv(s) && Spared(s, t)
    ensures !CanBeRefused(s, t)
  {
    forall after
      ensures !RefusedAt(Run(s, after).b, t)
    {
      RunSpares(s, after, t);
      var s' := Run(s, after);
      if RefusedAt(s'.b, t) {
        var f :| PairedAt(s', f);
        OnlyAwait(s', f, t);
      }
    }
  }

  // ---- a start that overtakes the stop ----

  predicate StopWaits(b: Broker) {
    exists u | u in b.waiters :: Stops(b, u)
  }

  /** No stop is on its way. */
  predicate Unstopped(b: Broker) {
    !StopHolds(b) && !StopWaits(b)
  }

  /** Only the stepping call can come into the line. */
  lemma LineGainsOnly(b: Broker, u: nat, expired: bool)
    requires u in b.tasks
    ensures forall x | x in DoStep(b, u, expired).waiters :: x == u || x in b.waiters
  {
    if !b.tasks[u].next.Queue? {
      StepMovesLine(b, u, expired);
    }
  }

  lemma UnstoppedBy(b: Broker, b': Broker, u: nat)
    requires Unstopped(b) && OwnStep(b, b', u) && !Stops(b', u)
    requires forall x | x in b'.waiters :: x == u || x in b.waiters
    ensures Unstopped(b')
  {
    forall x | x in b'.waiters
      ensures !Stops(b', x)
    {
      if x != u {
        assert !Stops(b, x);
      }
    }
  }

  /** A call that is not about to stop the stream. */
  predicate NoStop(next: Next) {
    next.Subscribe? || ((next.Queue? || next.Write? || next.Await?) && !next.request.StopStream?)
  }

  lemma NoStopNext(b: Broker, u: nat)
    requires u in b.tasks && NoStop(b.tasks[u].next)
    ensures !Stops(DoStep(b, u, false), u)
  {
  }

  lemma UnstoppedAfter(b: Broker, u: nat)
    requires u in b.tasks && TaskOk(b, u) && Granted(b.views, b.owner) && Unstopped(b) && NoStop(b.tasks[u].next)
    ensures Unstopped(DoStep(b, u, false))
  {
    StepIsOwn(b, u, false);
    LineGainsOnly(b, u, false);
    NoStopNext(b, u);
    UnstoppedBy(b, DoStep(b, u, false), u);
  }

  /** Stream `g` runs and no stop is on its way. */
  ghost predicate Live(p: Plan, s: State, g: nat) {
    p.request.StartStream? && Leads(p.s, s) && Inv(s) && Runs(s.w, g) && Unstopped(s.b)
  }

  lemma UnstoppedThrough(b: Broker, b': Broker)
    requires Unstopped(b) && b'.tasks == b.tasks && b'.waiters == b.waiters && b'.requestLock == b.requestLock
    ensures Unstopped(b')
  {
  }

  lemma LiveTake(p: Plan, s: State, g: nat)
    requires Live(p, s, g)
    ensures Live(p, Apply(s, Take), g) && Apply(s, Take).b == s.b
  {
    LeadsOn(p.s, s, Take);
    StepKeeps(s, Take);
    assert StreamOk(s.w, g);
  }

  lemma LiveRead(p: Plan, s: State, g: nat)
    requires Live(p, s, g)
    ensures Live(p, Apply(s, Read), g)
  {
    LeadsOn(p.s, s, Read);
    StepKeeps(s, Read);
    UnstoppedThrough(s.b, Apply(s, Read).b);
  }

  lemma LiveStep(p: Plan, s: State, g: nat, u: nat)
    requires Live(p, s, g) && u in s.b.tasks && NoStop(s.b.tasks[u].next)
    ensures Live(p, Apply(s, Step(u, false)), g)
  {
    assert TaskOk(s.b, u);
    LeadsOn(p.s, s, Step(u, false));
    StepKeeps(s, Step(u, false));
    StepSameStreams(s, u, false);
    UnstoppedAfter(s.b, u);
  }

  lemma LiveBusyAfter(p: Plan, s: State, g: nat, u: nat, line: seq<nat>, e: Event)
    requires Live(p, s, g) && Busy(p, s.b, u, line) && u != p.t && (e.Take? || e.Read?)
    ensures Live(p, Apply(s, e), g) && Busy(p, Apply(s, e).b, u, line)
    ensures Apply(s, e).b.tasks == s.b.tasks
  {
    if e.Take? {
      LiveTake(p, s, g);
    } else {
      LiveRead(p, s, g);
    }
    StillQueued(p, s, e);
  }

  /** Whoever holds the lock before the start has some other request. */
  lemma OthersAreOther(p: Plan, s: State, g: nat, u: nat)
    requires Live(p, s, g) && Queued(p, s.b) && u in s.b.tasks && u != p.t
    requires s.b.requestLock == Some(u) || u in s.b.waiters
    ensures var next := s.b.tasks[u].next;
            (next.Queue? || next.Write? || next.Await?) && next.request.OtherRequest?
  {
    assert TaskOk(s.b, u) && TaskOk(s.b, p.t);
  }

  lemma LiveSends(p: Plan, s: State, g: nat, u: nat, line: seq<nat>) returns (s': State)
    requires Live(p, s, g) && Queued(p, s.b) && s.b.requestLock == Some(u) && s.b.waiters == line
    ensures Live(p, s', g) && Busy(p, s'.b, u, line) && u != p.t && s'.b.tasks[u].next.request.OtherRequest?
  {
    assert TaskOk(s.b, u) && TaskOk(s.b, p.t);
    OthersAreOther(p, s, g, u);
    s' := s;
    if s.b.tasks[u].next.Write? {
      s' := Apply(s, Step(u, false));
      LiveStep(p, s, g, u);
      StillQueued(p, s, Step(u, false));
    }
  }

  lemma LiveServes(p: Plan, s: State, g: nat, u: nat, line: seq<nat>) returns (s': State, f: Flight)
    requires Live(p, s, g) && Busy(p, s.b, u, line) && u != p.t && s.b.tasks[u].next.request.OtherRequest?
    ensures Live(p, s', g) && Busy(p, s'.b, u, line) && PairedAt(s', f) && (f.Replied? || f.Arrived?)
  {
    s' := s;
    f :| PairedAt(s, f);
    if f.Sent? {
      LiveBusyAfter(p, s, g, u, line, Take);
      TakePaired(s, f);
      s', f := Apply(s, Take), FlightAfterTake(s);
    }
  }

  lemma {:induction false} LiveArrives(p: Plan, s: State, g: nat, u: nat, line: seq<nat>, f: Flight) returns (s': State)
    requires Live(p, s, g) && Busy(p, s.b, u, line) && u != p.t && PairedAt(s, f) && (f.Replied? || f.Arrived?)
    ensures Live(p, s', g) && Busy(p, s'.b, u, line) && s'.b.responses != []
    decreases if f.Replied? then f.i + 1 else 0
  {
    s' := s;
    if f.Replied? {
      LiveBusyAfter(p, s, g, u, line, Read);
      ReadPaired(s, f);
      s' := LiveArrives(p, Apply(s, Read), g, u, line, FlightAfterRead(s, f));
    }
  }

  lemma LiveReturns(p: Plan, s: State, g: nat, u: nat, line: seq<nat>)
    requires Live(p, s, g) && Busy(p, s.b, u, line) && u != p.t && s.b.responses != []
    ensures Live(p, Apply(s, Step(u, false)), g)
    ensures var b := Apply(s, Step(u, false)).b;
            Queued(p, b) && b.requestLock.None? && b.waiters == line
  {
    OthersAreOther(p, s, g, u);
    LiveStep(p, s, g, u);
    StillQueued(p, s, Step(u, false));
  }

  lemma LiveFreesTheLock(p: Plan, s: State, g: nat) returns (s': State)
    requires Live(p, s, g) && Queued(p, s.b)
    ensures Live(p, s', g) && Queued(p, s'.b) && s'.b.requestLock.None? && s'.b.waiters == s.b.waiters
  {
    s' := s;
    if s.b.requestLock.Some? {
      var u, f, line := s.b.requestLock.value, Sent, s.b.waiters;
      s' := LiveSends(p, s', g, u, line);
      s', f := LiveServes(p, s', g, u, line);
      s' := LiveArrives(p, s', g, u, line, f);
      LiveReturns(p, s', g, u, line);
      s' := Apply(s', Step(u, false));
    }
  }

  lemma LiveFirstTakes(p: Plan, s: State, g: nat, u: nat) returns (s': State)
    requires Live(p, s, g) && Queued(p, s.b) && s.b.requestLock.None? && s.b.waiters != [] && s.b.waiters[0] == u
    ensures Live(p, s', g) && (if u == p.t then Holds(p, s'.b) else Queued(p, s'.b)) && s'.b.waiters == s.b.waiters[1..]
  {
    if u != p.t {
      OthersAreOther(p, s, g, u);
      StillQueued(p, s, Step(u, false));
    }
    LiveStep(p, s, g, u);
    s' := Apply(s, Step(u, false));
  }

  lemma {:induction false} LiveAdvances(p: Plan, s: State, g: nat, i: nat) returns (s': State)
    requires Live(p, s, g) && Queued(p, s.b) && s.b.requestLock.None? && i < |s.b.waiters| && s.b.waiters[i] == p.t
    ensures Live(p, s', g) && Holds(p, s'.b)
    decreases i
  {
    s' := LiveFirstTakes(p, s, g, s.b.waiters[0]);
    if i > 0 {
      s' := LiveFreesTheLock(p, s', g);
      s' := LiveAdvances(p, s', g, i - 1);
    }
  }

  lemma LiveJoinsTheLine(p: Plan, s: State, g: nat) returns (s': State)
    requires Live(p, s, g) && Queued(p, s.b) && p.t !in s.b.waiters
    ensures Live(p, s', g) && (Holds(p, s'.b) || (Queued(p, s'.b) && s'.b.waiters == s.b.waiters + [p.t]))
  {
    LiveStep(p, s, g, p.t);
    s' := Apply(s, Step(p.t, false));
  }

  lemma LiveGetsTheLock(p: Plan, s: State, g: nat) returns (s': State)
    requires Live(p, s, g) && Queued(p, s.b) && p.t !in s.b.waiters
    ensures Live(p, s', g) && Holds(p, s'.b)
  {
    var i := |s.b.waiters|;
    s' := LiveJoinsTheLine(p, s, g);
    if !Holds(p, s'.b) {
      s' := LiveFreesTheLock(p, s', g);
      s' := LiveAdvances(p, s', g, i);
    }
  }

  predicate RefusedOnly(s: State) {
    && (forall i | 0 <= i < |s.toBroker| && s.toBroker[i].Answer? :: s.toBroker[i].r.Refused?)
    && (forall i | 0 <= i < |s.b.responses| :: s.b.responses[i].Refused?)
  }

  lemma LiveWrites(p: Plan, s: State, g: nat) returns (s': State)
    requires Live(p, s, g) && Holds(p, s.b)
    ensures Live(p, s', g) && Requested(p, s')
  {
    var f :| PairedAt(s, f);
    assert Silent(s);
    LiveStep(p, s, g, p.t);
    s' := Apply(s, Step(p.t, false));
  }

  lemma LiveRefuses(p: Plan, s: State, g: nat)
    requires Live(p, s, g) && Requested(p, s)
    ensures Live(p, Apply(s, Take), g) && Starting(p, Apply(s, Take).b) && RefusedOnly(Apply(s, Take)) && PairedAt(Apply(s, Take), Replied(|s.toBroker|))
  {
    assert StreamOk(s.w, g);
    var f :| PairedAt(s, f);
    LiveTake(p, s, g);
    TakePaired(s, f);
  }

  lemma {:induction false} LiveHears(p: Plan, s: State, g: nat, f: Flight) returns (s': State)
    requires Live(p, s, g) && Starting(p, s.b) && RefusedOnly(s) && PairedAt(s, f) && (f.Replied? || f.Arrived?)
    ensures Leads(p.s, s') && RefusedAt(s'.b, p.t)
    decreases if f.Replied? then f.i + 1 else 0
  {
    s' := s;
    if f.Replied? {
      var q := Apply(s, Read);
      LiveRead(p, s, g);
      ReadPaired(s, f);
      assert forall k | 0 <= k < |q.toBroker| :: q.toBroker[k] == s.toBroker[k + 1];
      s' := LiveHears(p, q, g, FlightAfterRead(s, f));
    }
  }

  lemma OvertakingCanBeRefused(s: State, t: nat, id: nat, g: nat)
    requires Inv(s) && t in s.b.tasks && s.b.tasks[t].next == Subscribe(id) && Runs(s.w, g) && Unstopped(s.b)
    ensures CanBeRefused(s, t)
  {
    var p, e := Plan(s, t, StartStream(id), |s.b.log|, None, 0), Step(t, false);
    assert Run(s, []) == s;
    LiveStep(p, s, g, t);
    var s' := LiveGetsTheLock(p, Apply(s, e), g);
    s' := LiveWrites(p, s', g);
    LiveRefuses(p, s', g);
    s' := LiveHears(p, Apply(s', Take), g, Replied(|s'.toBroker|));
    var after :| Run(s, after) == s';
    assert RefusedAt(Run(s, after).b, t);
  }

  lemma QuietUnlessRunning(s: State)
    requires Inv(s) && FlagMeansRunning(s.w) && NoneRuns(s.w)
    ensures Quiet(s.w) || StopHolds(s.b)
  {
    var f :| PairedAt(s, f);
  }

  lemma WaitingStopIsAhead(b: Broker, t: nat)
    requires Line(b) && t in b.tasks && !b.tasks[t].next.Queue? && !Unstopped(b)
    ensures StopFirst(b, t)
  {
    if !StopHolds(b) {
      var u :| u in b.waiters && Stops(b, u);
      var i :| 0 <= i < |b.waiters| && b.waiters[i] == u;
      forall j | 0 <= j <= i
        ensures b.waiters[j] != t
      {
        assert b.tasks[b.waiters[j]].next.Queue?;
      }
      assert StopAt(b, t, i);
    }
  }

  lemma StartIsSpared(s: State, t: nat, id: nat)
    requires Inv(s) && FlagMeansRunning(s.w) && t in s.b.tasks && s.b.tasks[t].next == Subscribe(id)
    requires NoneRuns(s.w) || !Unstopped(s.b)
    ensures Spared(s, t)
  {
    if NoneRuns(s.w) {
      QuietUnlessRunning(s);
    } else {
      WaitingStopIsAhead(s.b, t);
    }
  }

  /** In every run, the start of a call that is about to subscribe can be refused exactly when a
      stream task runs and no stop holds the request lock or waits for it in line. */
  lemma StartCanBeRefusedExactly(events: seq<Event>, t: nat, id: nat)
    requires var b := Run(Init, events).b;
             t in b.tasks && b.tasks[t].next == Subscribe(id)
    ensures var s := Run(Init, events);
            CanBeRefused(s, t) <==> !NoneRuns(s.w) && Unstopped(s.b)
  {
    var s := Run(Init, events);
    RunKeeps(events);
    RunFlag(events);
    if NoneRuns(s.w) || !Unstopped(s.b) {
      StartIsSpared(s, t, id);
      SparedCannotBeRefused(s, t);
    } else {
      var g :| g in s.w.forwarders && Runs(s.w, g);
      OvertakingCanBeRefused(s, t, id, g);
    }
  }

  /** Claim 2 is refused although the desktop was already taken over from claim 1. */
  lemma OvertakingClaimIsRefused()
    ensures exists s :: Leads(Init, s) && 3 in s.b.tasks && s.b.tasks[3] == Task(Claim(true), Over(false)) && s.b.owner == 2 && 2 !in s.b.views
  {
    OvertakingIsReached(Running);
    RunsThrough(Overtaking(Running), 3, 2);
  }
}
