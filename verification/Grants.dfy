/**
  When a call for the desktop stream must get it (broker.rs of rivetlink-agent): which claims
  take the desktop over, and which calls that hold the claim lock can still end with a stream.
 */
module Grants {
  import opened Common
  import opened Desktop
  import opened EndNotices

  // ---- which claims take over ----

  /** The decision of a claim that has the lock. */
  lemma ClaimIsDecided(b: Broker, t: nat, expired: bool)
    requires t in b.tasks && TaskOk(b, t) && b.tasks[t].call.Claim? && b.tasks[t].next.Check?
    ensures var b' := DoStep(b, t, expired);
            && b'.owner == b.owner
            && if b.tasks[t].call.takeOver || !b.active then b'.tasks[t].next == Bump && b'.claimLock == Some(t)
               else b'.tasks[t].next == Over(false) && b'.claimLock.None?
  {
  }

  predicate NotOf(t: nat, events: seq<Event>) {
    forall e | e in events && e.Step? :: e.t != t
  }

  /** A call that others do not step keeps its place, and with the claim lock also the owner. */
  lemma OthersLeave(s: State, t: nat, e: Event)
    requires Inv(s) && t in s.b.tasks && (e.Step? ==> e.t != t)
    ensures var b' := Apply(s, e).b;
            t in b'.tasks && b'.tasks[t] == s.b.tasks[t] && (s.b.claimLock == Some(t) ==> b'.owner == s.b.owner && b'.claimLock == Some(t))
  {
    if e.Step? && e.t in s.b.tasks {
      assert TaskOk(s.b, e.t) && TaskOk(s.b, t);
      StepIsOwn(s.b, e.t, e.expired);
    }
  }

  lemma {:induction false} OthersLeaveRun(s: State, t: nat, events: seq<Event>)
    requires Inv(s) && t in s.b.tasks && NotOf(t, events)
    ensures Inv(Run(s, events))
    ensures var b' := Run(s, events).b;
            t in b'.tasks && b'.tasks[t] == s.b.tasks[t] && (s.b.claimLock == Some(t) ==> b'.owner == s.b.owner && b'.claimLock == Some(t))
    decreases |events|
  {
    if events != [] {
      var front, e := events[..|events| - 1], Last(events);
      assert e in events && NotOf(t, front);
      OthersLeaveRun(s, t, front);
      OthersLeave(Run(s, front), t, e);
      StepKeeps(Run(s, front), e);
    }
  }

  /** In every run, a claim that has the lock moves the owner on by exactly one with its next
      two steps, whatever others do in between, if it takes over or no stream is active; and
      otherwise it is refused for good. */
  lemma ClaimTakesOverExactly(events: seq<Event>, t: nat, x: bool, between: seq<Event>, y: bool)
    requires var b := Run(Init, events).b;
             t in b.tasks && b.tasks[t].call.Claim? && b.tasks[t].next.Check? && NotOf(t, between)
    ensures var s := Run(Init, events);
            var s' := Apply(Run(Apply(s, Step(t, x)), between), Step(t, y));
            && t in s'.b.tasks
            && if s.b.tasks[t].call.takeOver || !s.b.active
               then s'.b.owner == s.b.owner + 1 && s'.b.tasks[t].next == Poll(s.b.owner + 1)
               else s'.b.tasks[t].next == Over(false)
  {
    var s := Run(Init, events);
    RunKeeps(events);
    assert TaskOk(s.b, t);
    ClaimIsDecided(s.b, t, x);
    StepKeeps(s, Step(t, x));
    OthersLeaveRun(Apply(s, Step(t, x)), t, between);
  }

  /** A display switch goes on exactly when no one has the lock and it still owns the desktop. */
  lemma SwitchGoesOnExactly(events: seq<Event>, t: nat, x: bool)
    requires var b := Run(Init, events).b;
             t in b.tasks && b.tasks[t].call.Switch? && b.tasks[t].next.Enter?
    ensures var b := Run(Init, events).b;
            var b' := DoStep(b, t, x);
            if b.claimLock.None? && b.owner == b.tasks[t].call.id then b'.tasks[t].next == StoreFlag && b'.claimLock == Some(t)
            else b'.tasks[t].next == Over(false) && b'.claimLock == b.claimLock
  {
    RunKeeps(events);
    assert TaskOk(Run(Init, events).b, t);
  }

  // ---- a call that can still be granted a stream ----

  predicate GrantedAt(b: Broker, t: nat) {
    t in b.tasks && b.tasks[t].next == Over(true) && b.owner in b.views
  }

  ghost predicate CanBeGranted(s: State, t: nat) {
    exists after :: GrantedAt(Run(s, after).b, t)
  }

  ghost predicate Fair(s: State, s': State) {
    Leads(s, s') && Inv(s') && FlagMeansRunning(s'.w)
  }

  lemma FairAfter(s: State, s': State, e: Event)
    requires Fair(s, s')
    ensures Fair(s, Apply(s', e))
  {
    LeadsOn(s, s', e);
    StepKeeps(s', e);
    StepFlag(s', e);
  }

  function PlanOf(s: State, t: nat, request: Request, sub: nat): Plan {
    Plan(s, t, request, sub, None, 0)
  }

  lemma ViewingIsGranted(p: Plan, s: State)
    requires On(p, s) && Viewing(p, s.b)
    ensures CanBeGranted(p.s, p.t)
  {
    var after :| Run(p.s, after) == s;
    assert GrantedAt(Run(p.s, after).b, p.t);
  }

  lemma QueuedIsGranted(s: State, s': State, t: nat, id: nat, sub: nat)
    requires Fair(s, s') && t in s'.b.tasks
    requires s'.b.tasks[t].next == Queue(StartStream(id), sub) || s'.b.tasks[t].next == Write(StartStream(id), sub)
    ensures CanBeGranted(s, t)
  {
    var p := PlanOf(s, t, StartStream(id), sub);
    assert TaskOk(s'.b, t);
    var q := StartsStream(p, s');
    ViewingIsGranted(p, q);
  }

  lemma SubscribedIsGranted(s: State, s': State, t: nat, id: nat)
    requires Fair(s, s') && t in s'.b.tasks && s'.b.tasks[t].next == Subscribe(id)
    ensures CanBeGranted(s, t)
  {
    FairAfter(s, s', Step(t, false));
    QueuedIsGranted(s, Apply(s', Step(t, false)), t, id, |s'.b.log|);
  }

  lemma SwappingIsGranted(s: State, s': State, t: nat, id: nat)
    requires Fair(s, s') && t in s'.b.tasks && s'.b.tasks[t].next == Swap(id)
    ensures CanBeGranted(s, t)
  {
    assert FlagOk(s'.b, s'.b.tasks[t]);
    FairAfter(s, s', Step(t, false));
    SubscribedIsGranted(s, Apply(s', Step(t, false)), t, id);
  }

  // A stop of the stream that is still active comes from its own viewer.

  lemma {:induction false} SomeBound(keys: set<nat>) returns (n: nat)
    ensures forall x | x in keys :: x < n
    decreases keys
  {
    n := 0;
    if keys != {} {
      var x :| x in keys;
      n := SomeBound(keys - {x});
      assert forall y | y in keys :: y == x || y in keys - {x};
      n := if x < n then n else x + 1;
    }
  }

  lemma LowersFlag(s: State, s': State, t: nat) returns (q: State)
    requires Fair(s, s') && t in s'.b.tasks
    ensures Fair(s, q) && !q.b.active && t in q.b.tasks && q.b.tasks[t] == s'.b.tasks[t]
  {
    var u := SomeBound(s'.b.tasks.Keys);
    FairAfter(s, s', Begin(u, Stop));
    q := Apply(s', Begin(u, Stop));
    FairAfter(s, q, Step(u, false));
    q := Apply(q, Step(u, false));
  }

  lemma PollingIsGranted(s: State, s': State, t: nat, id: nat)
    requires Fair(s, s') && t in s'.b.tasks && s'.b.tasks[t].next == Poll(id)
    ensures CanBeGranted(s, t)
  {
    var q := LowersFlag(s, s', t);
    FairAfter(s, q, Step(t, false));
    SwappingIsGranted(s, Apply(q, Step(t, false)), t, id);
  }

  lemma BumpingIsGranted(s: State, s': State, t: nat)
    requires Fair(s, s') && t in s'.b.tasks && s'.b.tasks[t].next == Bump
    ensures CanBeGranted(s, t)
  {
    FairAfter(s, s', Step(t, false));
    PollingIsGranted(s, Apply(s', Step(t, false)), t, s'.b.owner + 1);
  }

  lemma CheckingIsGranted(s: State, s': State, t: nat)
    requires Fair(s, s') && t in s'.b.tasks && s'.b.tasks[t].next == Check
    ensures CanBeGranted(s, t)
  {
    var q := LowersFlag(s, s', t);
    FairAfter(s, q, Step(t, false));
    BumpingIsGranted(s, Apply(q, Step(t, false)), t);
  }

  // The first half of a display switch.

  lemma StepKeepsCall(b: Broker, t: nat, expired: bool)
    requires t in b.tasks && TaskOk(b, t) && Granted(b.views, b.owner)
    ensures t in DoStep(b, t, expired).tasks && DoStep(b, t, expired).tasks[t].call == b.tasks[t].call
  {
    StepIsOwn(b, t, expired);
  }

  lemma EventKeepsCall(s: State, t: nat, e: Event)
    requires Inv(s) && t in s.b.tasks
    ensures t in Apply(s, e).b.tasks && Apply(s, e).b.tasks[t].call == s.b.tasks[t].call
  {
    if e.Step? && e.t == t {
      assert TaskOk(s.b, t);
      StepKeepsCall(s.b, t, e.expired);
    } else {
      OthersLeave(s, t, e);
    }
  }

  lemma {:induction false} CallsStay(s: State, t: nat, events: seq<Event>)
    requires Inv(s) && t in s.b.tasks
    ensures Inv(Run(s, events)) && t in Run(s, events).b.tasks && Run(s, events).b.tasks[t].call == s.b.tasks[t].call
    decreases |events|
  {
    if events != [] {
      var front := Run(s, events[..|events| - 1]);
      CallsStay(s, t, events[..|events| - 1]);
      EventKeepsCall(front, t, Last(events));
      StepKeeps(front, Last(events));
    }
  }

  lemma StopIsAnswered(p: Plan, s: State) returns (s': State)
    requires On(p, s) && (Holds(p, s.b) || Busy(p, s.b, p.t, s.b.waiters))
    ensures On(p, s') && Busy(p, s'.b, p.t, s.b.waiters) && s'.b.responses != []
  {
    var line, f := s.b.waiters, Sent;
    s' := s;
    if Holds(p, s.b) {
      s' := Sends(p, s, p.t, line);
    }
    s', f := Serves(p, s', p.t, line);
    s' := Arrives(p, s', p.t, line, f);
  }

  lemma AnsweredStopGoesOn(s: State, s': State, t: nat, sub: nat)
    requires Fair(s, s') && t in s'.b.tasks && s'.b.tasks[t].call.Switch? && s'.b.tasks[t].next == Await(StopStream, sub) && s'.b.responses != []
    ensures CanBeGranted(s, t)
  {
    var f :| PairedAt(s', f);
    OnlyAwait(s', f, t);
    FairAfter(s, s', Step(t, false));
    SwappingIsGranted(s, Apply(s', Step(t, false)), t, s'.b.tasks[t].call.id);
  }

  lemma StoppingIsGranted(s: State, s': State, t: nat, sub: nat)
    requires Inv(s) && t in s.b.tasks && s.b.tasks[t].call.Switch? && Fair(s, s') && t in s'.b.tasks
    requires var next := s'.b.tasks[t].next;
             next == Queue(StopStream, sub) || next == Write(StopStream, sub) || next == Await(StopStream, sub)
    ensures CanBeGranted(s, t)
  {
    var p := PlanOf(s, t, StopStream, sub);
    assert TaskOk(s'.b, t);
    var q := s';
    if s'.b.tasks[t].next.Queue? {
      q := GetsTheLock(p, q);
    }
    q := StopIsAnswered(p, q);
    var events :| Run(s, events) == q;
    CallsStay(s, t, events);
    AnsweredStopGoesOn(s, q, t, sub);
  }

  lemma LoweringIsGranted(s: State, s': State, t: nat)
    requires Inv(s) && t in s.b.tasks && s.b.tasks[t].call.Switch? && Fair(s, s') && t in s'.b.tasks && s'.b.tasks[t].next == StoreFlag
    ensures CanBeGranted(s, t)
  {
    FairAfter(s, s', Step(t, false));
    StoppingIsGranted(s, Apply(s', Step(t, false)), t, 0);
  }

  // A start that is on its way, or answered.

  /** The worker's refusal is on its way to `t`. */
  predicate RefusalComing(s: State, t: nat) {
    && t in s.b.tasks && s.b.tasks[t].next.Await? && s.b.tasks[t].next.request.StartStream?
    && (Answer(Refused) in s.toBroker || Refused in s.b.responses)
  }

  lemma UnrefusedIsStarted(s: State, f: Flight, request: Request)
    requires FlightOk(s, request, f) && request.StartStream? && !f.Sent?
    requires Answer(Refused) !in s.toBroker && Refused !in s.b.responses
    ensures s.toWorker == [] && s.w.loop.Idle? && 0 < |s.w.starts| && StartedOnly(s)
  {
    if f.Replied? {
      assert s.toBroker[f.i] in s.toBroker;
    } else {
      assert s.b.responses[0] in s.b.responses;
    }
  }

  lemma AwaitingIsGranted(s: State, s': State, t: nat, id: nat, sub: nat)
    requires Fair(s, s') && t in s'.b.tasks && s'.b.tasks[t].next == Await(StartStream(id), sub) && !RefusalComing(s', t)
    ensures CanBeGranted(s, t)
  {
    var p := PlanOf(s, t, StartStream(id), sub);
    var f :| PairedAt(s', f);
    assert TaskOk(s'.b, t);
    OnlyAwait(s', f, t);
    var q := s';
    if f.Sent? {
      q := TakesStream(p, q);
    } else {
      UnrefusedIsStarted(s', f, StartStream(id));
      q := ReadsAll(p, q);
      q := Answered(p, q);
    }
    ViewingIsGranted(p, q);
  }

  lemma HolderIsGranted(s: State, t: nat)
    requires Inv(s) && FlagMeansRunning(s.w) && t in s.b.tasks && HoldsClaim(s.b.tasks[t]) && !RefusalComing(s, t)
    ensures CanBeGranted(s, t)
  {
    assert Run(s, []) == s;
    assert TaskOk(s.b, t);
    match s.b.tasks[t].next
    case Check => CheckingIsGranted(s, s, t);
    case Bump => BumpingIsGranted(s, s, t);
    case Poll(id) => PollingIsGranted(s, s, t, id);
    case StoreFlag => LoweringIsGranted(s, s, t);
    case Swap(id) => SwappingIsGranted(s, s, t, id);
    case Subscribe(id) => SubscribedIsGranted(s, s, t, id);
    case Queue(request, sub) => RequestIsGranted(s, t, request, sub);
    case Write(request, sub) => RequestIsGranted(s, t, request, sub);
    case Await(request, sub) => RequestIsGranted(s, t, request, sub);
  }

  lemma RequestIsGranted(s: State, t: nat, request: Request, sub: nat)
    requires Fair(s, s) && t in s.b.tasks && HoldsClaim(s.b.tasks[t]) && !RefusalComing(s, t)
    requires var next := s.b.tasks[t].next;
             next == Queue(request, sub) || next == Write(request, sub) || next == Await(request, sub)
    ensures CanBeGranted(s, t)
  {
    assert TaskOk(s.b, t);
    if request.StopStream? {
      StoppingIsGranted(s, s, t, sub);
    } else if s.b.tasks[t].next.Await? {
      AwaitingIsGranted(s, s, t, request.id, sub);
    } else {
      QueuedIsGranted(s, s, t, request.id, sub);
    }
  }

  // ---- a refusal is final ----

  predicate Barred(s: State, t: nat) {
    RefusalComing(s, t) || (t in s.b.tasks && s.b.tasks[t].next == Over(false))
  }

  lemma OwnStepBars(s: State, f: Flight, t: nat, expired: bool)
    requires Locks(s.b) && PairedAt(s, f) && Barred(s, t)
    ensures Barred(DoCall(s, t, expired), t)
  {
    if RefusalComing(s, t) {
      OnlyAwait(s, f, t);
    }
  }

  lemma OtherStepBars(s: State, f: Flight, t: nat, u: nat, expired: bool)
    requires Locks(s.b) && PairedAt(s, f) && Barred(s, t) && u in s.b.tasks && u != t
    ensures Barred(DoCall(s, u, expired), t)
  {
    assert TaskOk(s.b, t) && TaskOk(s.b, u);
    StepIsOwn(s.b, u, expired);
    StepSameStreams(s, u, expired);
    if s.b.tasks[t].next.Await? {
      OtherStepEffect(s.b, u, expired);
    }
  }

  lemma ReadBars(s: State, t: nat)
    requires Barred(s, t)
    ensures Barred(Apply(s, Read), t)
  {
    if s.toBroker != [] && RefusalComing(s, t) && Answer(Refused) in s.toBroker {
      var k :| 0 <= k < |s.toBroker| && s.toBroker[k] == Answer(Refused);
      if k == 0 {
        assert Last(Apply(s, Read).b.responses) == Refused;
      } else {
        assert s.toBroker[1..][k - 1] == Answer(Refused);
      }
    }
  }

  lemma StepBars(s: State, t: nat, e: Event)
    requires Inv(s) && Barred(s, t)
    ensures Barred(Apply(s, e), t)
  {
    if e.Step? && e.t in s.b.tasks {
      var f :| PairedAt(s, f);
      if e.t == t {
        OwnStepBars(s, f, t, e.expired);
      } else {
        OtherStepBars(s, f, t, e.t, e.expired);
      }
    } else if e.Read? {
      ReadBars(s, t);
    }
  }

  lemma {:induction false} RunBars(s: State, t: nat, events: seq<Event>)
    requires Inv(s) && Barred(s, t)
    ensures Inv(Run(s, events)) && Barred(Run(s, events), t)
    decreases |events|
  {
    if events != [] {
      var front := Run(s, events[..|events| - 1]);
      RunBars(s, t, events[..|events| - 1]);
      StepBars(front, t, Last(events));
      StepKeeps(front, Last(events));
    }
  }

  /** In every run, a claim or display switch that has the claim lock, wherever it has got to,
      can still end with a stream of its own exactly when the worker's refusal of it is not
      already on its way. */
  lemma HolderCanBeGrantedExactly(events: seq<Event>, t: nat)
    requires var b := Run(Init, events).b;
             t in b.tasks && b.claimLock == Some(t)
    ensures CanBeGranted(Run(Init, events), t) <==> !RefusalComing(Run(Init, events), t)
  {
    var s := Run(Init, events);
    RunKeeps(events);
    RunFlag(events);
    assert TaskOk(s.b, t);
    if RefusalComing(s, t) {
      forall after
        ensures !GrantedAt(Run(s, after).b, t)
      {
        RunBars(s, t, after);
      }
    } else {
      HolderIsGranted(s, t);
    }
  }
}
