/**
  End notices of desktop streams (worker.rs and broker.rs of rivetlink-agent): which streams'
  notices can still reach a stream that is about to be started.
 */
module EndNotices {
  import opened Common
  import opened Desktop

  // ---- what can still land ----

  /** Stream `h` has a task left, or its notice is written and not read yet. */
  predicate Pending(s: State, h: nat) {
    h in s.w.forwarders || Ended(h) in s.toBroker
  }

  predicate LandedFrom(log: seq<Message>, sub: nat, h: nat) {
    exists k | sub <= k < |log| :: log[k] == Ended(h)
  }

  lemma StartsGrow(s: State, e: Event)
    ensures |s.w.starts| <= |Apply(s, e).w.starts|
  {
  }

  lemma StepPending(s: State, e: Event, h: nat)
    requires h < |s.w.starts|
    ensures Pending(Apply(s, e), h) ==> Pending(s, h)
  {
  }

  lemma StepLands(s: State, e: Event, sub: nat, h: nat)
    ensures LandedFrom(Apply(s, e).b.log, sub, h) ==> LandedFrom(s.b.log, sub, h) || Pending(s, h)
  {
    LogGrows(s, e);
    var log := Apply(s, e).b.log;
    if LandedFrom(log, sub, h) {
      var k :| sub <= k < |log| && log[k] == Ended(h);
      if k < |s.b.log| {
        assert s.b.log[k] == Ended(h);
      }
    }
  }

  /** Only a read adds to the log, and it adds what was first on the wire. */
  lemma LogGrows(s: State, e: Event)
    ensures var log := Apply(s, e).b.log;
            log == s.b.log || (e.Read? && s.toBroker != [] && log == s.b.log + [s.toBroker[0]])
  {
    if e.Step? && e.t in s.b.tasks {
      StepSameStreams(s, e.t, e.expired);
    }
  }

  /** A stream without a task and without an unread notice never reports again: in particular
      one whose stop was answered. */
  lemma {:induction false} SilentStreamStaysSilent(s: State, events: seq<Event>, h: nat)
    requires h < |s.w.starts| && !Pending(s, h)
    ensures |s.w.starts| <= |Run(s, events).w.starts| && |s.b.log| <= |Run(s, events).b.log|
    ensures !Pending(Run(s, events), h) && !LandedFrom(Run(s, events).b.log, |s.b.log|, h)
    decreases |events|
  {
    if events != [] {
      var front := Run(s, events[..|events| - 1]);
      SilentStreamStaysSilent(s, events[..|events| - 1], h);
      StartsGrow(front, Last(events));
      StepPending(front, Last(events), h);
      StepLands(front, Last(events), |s.b.log|, h);
      LogGrows(front, Last(events));
    }
  }

  // ---- the worker's flag ----

  /** An idle worker with its flag up has a running stream task. */
  predicate FlagMeansRunning(w: Worker) {
    w.active && w.loop.Idle? ==> w.starts != [] && Runs(w, |w.starts| - 1)
  }

  lemma StepFlag(s: State, e: Event)
    requires FlagMeansRunning(s.w)
    ensures FlagMeansRunning(Apply(s, e).w)
  {
    if e.Step? && e.t in s.b.tasks {
      StepSameStreams(s, e.t, e.expired);
    }
  }

  lemma {:induction false} RunFlag(events: seq<Event>)
    ensures FlagMeansRunning(Run(Init, events).w)
    decreases |events|
  {
    if events != [] {
      RunFlag(events[..|events| - 1]);
      StepFlag(Run(Init, events[..|events| - 1]), Last(events));
    }
  }

  // ---- leading a start to its view ----

  ghost predicate Leads(s: State, s': State) {
    exists events :: Run(s, events) == s'
  }

  lemma LeadsOn(s: State, s': State, e: Event)
    requires Leads(s, s')
    ensures Leads(s, Apply(s', e))
  {
    var events :| Run(s, events) == s';
    assert (events + [e])[..|events|] == events;
    assert Run(s, events + [e]) == Apply(s', e);
  }

  /** The notice of `h` is on the wire or landed at or after `sub`. */
  predicate Noted(s: State, sub: nat, h: nat) {
    Ended(h) in s.toBroker || LandedFrom(s.b.log, sub, h)
  }

  lemma NotedStays(s: State, e: Event, sub: nat, h: nat)
    requires Noted(s, sub, h) && sub <= |s.b.log|
    ensures Noted(Apply(s, e), sub, h)
  {
    LogGrows(s, e);
    var s' := Apply(s, e);
    if LandedFrom(s.b.log, sub, h) {
      var k :| sub <= k < |s.b.log| && s.b.log[k] == Ended(h);
      assert s'.b.log[k] == Ended(h);
    } else {
      var k :| 0 <= k < |s.toBroker| && s.toBroker[k] == Ended(h);
      WireKeeps(s, e, k);
      if e.Read? && k == 0 {
        assert s'.b.log[|s.b.log|] == Ended(h);
      }
    }
  }

  /** A message stays on the wire until it is read. */
  lemma WireKeeps(s: State, e: Event, k: nat)
    requires k < |s.toBroker|
    ensures s.toBroker[k] in Apply(s, e).toBroker || (e.Read? && k == 0)
  {
    if e.Step? && e.t in s.b.tasks {
      StepSameStreams(s, e.t, e.expired);
    } else if e.Read? && k > 0 {
      assert s.toBroker[1..][k - 1] == s.toBroker[k];
    }
  }

  /** Call `t` has its request made. For a start that subscribed at `sub`, `n` streams had been
      started before, and the notice of the older stream `h` may be to land on it. */
  datatype Plan = Plan(s: State, t: nat, request: Request, sub: nat, h: Option<nat>, n: nat)

  ghost predicate On(p: Plan, s: State) {
    && Leads(p.s, s) && Inv(s) && FlagMeansRunning(s.w)
    && (p.h.Some? ==> p.sub <= |s.b.log| && Noted(s, p.sub, p.h.value)) && p.n <= |s.w.starts|
  }

  lemma OnAfter(p: Plan, s: State, e: Event)
    requires On(p, s)
    ensures On(p, Apply(s, e))
  {
    LeadsOn(p.s, s, e);
    StepKeeps(s, e);
    StepFlag(s, e);
    if p.h.Some? {
      NotedStays(s, e, p.sub, p.h.value);
    }
    LogGrows(s, e);
    StartsGrow(s, e);
  }

  /** The call waits for the request lock. */
  predicate Queued(p: Plan, b: Broker) {
    p.t in b.tasks && b.tasks[p.t].next == Queue(p.request, p.sub)
  }

  lemma StillQueued(p: Plan, s: State, e: Event)
    requires Queued(p, s.b) && Locks(s.b) && (e.Step? ==> e.t != p.t)
    ensures Queued(p, Apply(s, e).b)
  {
    if e.Step? && e.t in s.b.tasks {
      assert TaskOk(s.b, e.t);
      StepIsOwn(s.b, e.t, e.expired);
    }
  }

  /** This or another call waits for its answer. */
  predicate Busy(p: Plan, b: Broker, u: nat, line: seq<nat>) {
    && b.waiters == line && b.requestLock == Some(u) && u in b.tasks
    && if u == p.t then b.tasks[u].next == Await(p.request, p.sub) else Queued(p, b) && b.tasks[u].next.Await?
  }

  /** Only calls and their steps touch the calls and their locks. */
  lemma CallsRest(s: State, e: Event)
    requires !e.Step? && !e.Begin?
    ensures var b := Apply(s, e).b;
            b.tasks == s.b.tasks && b.requestLock == s.b.requestLock && b.waiters == s.b.waiters
  {
  }

  lemma BusyStays(p: Plan, b: Broker, b': Broker, u: nat, line: seq<nat>)
    requires Busy(p, b, u, line) && b'.tasks == b.tasks && b'.requestLock == b.requestLock && b'.waiters == b.waiters
    ensures Busy(p, b', u, line)
  {
  }

  lemma BusyAfter(p: Plan, s: State, u: nat, line: seq<nat>, e: Event)
    requires On(p, s) && Busy(p, s.b, u, line) && !e.Step? && !e.Begin?
    ensures On(p, Apply(s, e)) && Busy(p, Apply(s, e).b, u, line)
  {
    OnAfter(p, s, e);
    CallsRest(s, e);
    BusyStays(p, s.b, Apply(s, e).b, u, line);
  }

  lemma Sends(p: Plan, s: State, u: nat, line: seq<nat>) returns (s': State)
    requires On(p, s) && (Queued(p, s.b) || (u == p.t && Holds(p, s.b))) && s.b.requestLock == Some(u) && s.b.waiters == line
    ensures On(p, s') && Busy(p, s'.b, u, line)
  {
    assert TaskOk(s.b, u) && TaskOk(s.b, p.t);
    s' := s;
    if s.b.tasks[u].next.Write? {
      s' := Apply(s, Step(u, false));
      OnAfter(p, s, Step(u, false));
      if u != p.t {
        StillQueued(p, s, Step(u, false));
      }
    }
  }

  lemma TaskGoes(p: Plan, s: State, u: nat, line: seq<nat>) returns (s': State)
    requires On(p, s) && Busy(p, s.b, u, line) && PairedAt(s, Served)
    ensures On(p, s') && Busy(p, s'.b, u, line) && PairedAt(s', Served) && Joins(s'.w)
  {
    var g := s.w.loop.g;
    if Runs(s.w, g) {
      BusyAfter(p, s, u, line, Exit(g));
      ExitPaired(s, Served, g);
      s' := Apply(s, Exit(g));
    } else {
      BusyAfter(p, s, u, line, Report(g));
      ReportPaired(s, Served, g);
      s' := Apply(s, Report(g));
    }
  }

  /** A stop is joined as soon as its stream task is made to end. */
  lemma Joined(p: Plan, s: State, u: nat, line: seq<nat>) returns (s': State, i: nat)
    requires On(p, s) && Busy(p, s.b, u, line) && PairedAt(s, Served)
    ensures On(p, s') && Busy(p, s'.b, u, line) && PairedAt(s', Replied(i))
  {
    var q := TaskGoes(p, s, u, line);
    BusyAfter(p, q, u, line, Join);
    JoinPaired(q, Served);
    s', i := Apply(q, Join), |q.toBroker|;
  }

  lemma Serves(p: Plan, s: State, u: nat, line: seq<nat>) returns (s': State, f: Flight)
    requires On(p, s) && Busy(p, s.b, u, line)
    ensures On(p, s') && Busy(p, s'.b, u, line) && PairedAt(s', f) && (f.Replied? || f.Arrived?)
  {
    s' := s;
    f :| PairedAt(s, f);
    if f.Sent? {
      BusyAfter(p, s, u, line, Take);
      TakePaired(s, f);
      s', f := Apply(s, Take), FlightAfterTake(s);
    }
    if f.Served? {
      var i;
      s', i := Joined(p, s', u, line);
      f := Replied(i);
    }
  }

  lemma {:induction false} Arrives(p: Plan, s: State, u: nat, line: seq<nat>, f: Flight) returns (s': State)
    requires On(p, s) && Busy(p, s.b, u, line) && PairedAt(s, f) && (f.Replied? || f.Arrived?)
    ensures On(p, s') && Busy(p, s'.b, u, line) && s'.b.responses != []
    decreases if f.Replied? then f.i + 1 else 0
  {
    s' := s;
    if f.Replied? {
      BusyAfter(p, s, u, line, Read);
      ReadPaired(s, f);
      s' := Arrives(p, Apply(s, Read), u, line, FlightAfterRead(s, f));
    }
  }

  lemma Returns(p: Plan, s: State, u: nat, line: seq<nat>)
    requires On(p, s) && Busy(p, s.b, u, line) && u != p.t && s.b.responses != []
    ensures On(p, Apply(s, Step(u, false)))
    ensures var b := Apply(s, Step(u, false)).b;
            Queued(p, b) && b.requestLock.None? && b.waiters == line
  {
    OnAfter(p, s, Step(u, false));
    StillQueued(p, s, Step(u, false));
    assert TaskOk(s.b, u);
  }

  /** Whatever request is outstanding, its answer can be awaited. */
  lemma FreesTheLock(p: Plan, s: State) returns (s': State)
    requires On(p, s) && Queued(p, s.b)
    ensures On(p, s') && Queued(p, s'.b) && s'.b.requestLock.None? && s'.b.waiters == s.b.waiters
  {
    s' := s;
    if s.b.requestLock.Some? {
      var u, f, line := s.b.requestLock.value, Sent, s.b.waiters;
      s' := Sends(p, s', u, line);
      s', f := Serves(p, s', u, line);
      s' := Arrives(p, s', u, line, f);
      Returns(p, s', u, line);
      s' := Apply(s', Step(u, false));
    }
  }

  /** The call got the request lock. */
  predicate Holds(p: Plan, b: Broker) {
    p.t in b.tasks && b.requestLock == Some(p.t) && b.tasks[p.t].next == Write(p.request, p.sub)
  }

  /** The first in line takes the free lock. */
  lemma FirstTakes(p: Plan, s: State, u: nat) returns (s': State)
    requires On(p, s) && Queued(p, s.b) && s.b.requestLock.None? && s.b.waiters != [] && s.b.waiters[0] == u
    ensures On(p, s') && (if u == p.t then Holds(p, s'.b) else Queued(p, s'.b)) && s'.b.waiters == s.b.waiters[1..]
  {
    OnAfter(p, s, Step(u, false));
    if u != p.t {
      StillQueued(p, s, Step(u, false));
    }
    s' := Apply(s, Step(u, false));
  }

  /** Everyone in line before the call is served, one after another. */
  lemma {:induction false} Advances(p: Plan, s: State, i: nat) returns (s': State)
    requires On(p, s) && Queued(p, s.b) && s.b.requestLock.None? && i < |s.b.waiters| && s.b.waiters[i] == p.t
    ensures On(p, s') && Holds(p, s'.b)
    decreases i
  {
    s' := FirstTakes(p, s, s.b.waiters[0]);
    if i > 0 {
      s' := FreesTheLock(p, s');
      s' := Advances(p, s', i - 1);
    }
  }

  lemma JoinsTheLine(p: Plan, s: State) returns (s': State)
    requires On(p, s) && Queued(p, s.b) && p.t !in s.b.waiters
    ensures On(p, s') && (Holds(p, s'.b) || (Queued(p, s'.b) && s'.b.waiters == s.b.waiters + [p.t]))
  {
    OnAfter(p, s, Step(p.t, false));
    s' := Apply(s, Step(p.t, false));
  }

  lemma GetsTheLock(p: Plan, s: State) returns (s': State)
    requires On(p, s) && Queued(p, s.b)
    ensures On(p, s') && Holds(p, s'.b)
  {
    s' := s;
    if p.t !in s.b.waiters {
      s' := JoinsTheLine(p, s);
    }
    if !Holds(p, s'.b) {
      var i :| 0 <= i < |s'.b.waiters| && s'.b.waiters[i] == p.t;
      s' := FreesTheLock(p, s');
      s' := Advances(p, s', i);
    }
  }

  /** The start's own request is on its way, or was taken. */
  predicate Starting(p: Plan, b: Broker) {
    p.t in b.tasks && b.requestLock == Some(p.t) && b.tasks[p.t].next == Await(p.request, p.sub)
  }

  lemma StartingAfter(p: Plan, s: State, e: Event)
    requires On(p, s) && Starting(p, s.b) && !e.Step? && !e.Begin?
    ensures On(p, Apply(s, e)) && Starting(p, Apply(s, e).b)
  {
    OnAfter(p, s, e);
    CallsRest(s, e);
  }

  lemma Writes(p: Plan, s: State) returns (s': State)
    requires On(p, s) && Holds(p, s.b)
    ensures On(p, s') && Requested(p, s')
  {
    var f :| PairedAt(s, f);
    assert Silent(s);
    OnAfter(p, s, Step(p.t, false));
    s' := Apply(s, Step(p.t, false));
  }

  predicate StartedOnly(s: State) {
    && (forall i | 0 <= i < |s.toBroker| && s.toBroker[i].Answer? :: s.toBroker[i].r.Started?)
    && (forall i | 0 <= i < |s.b.responses| :: s.b.responses[i].Started?)
  }

  predicate Accepted(p: Plan, s: State) {
    Starting(p, s.b) && s.toWorker == [] && s.w.loop.Idle? && p.n < |s.w.starts| && StartedOnly(s)
  }

  /** The start's request is on the wire and nothing else is. */
  predicate Requested(p: Plan, s: State) {
    Starting(p, s.b) && s.toWorker == [p.request] && s.w.loop.Idle? && s.b.responses == [] && NoAnswer(s.toBroker)
  }

  lemma Settles(p: Plan, s: State) returns (s': State)
    requires On(p, s) && Requested(p, s)
    ensures On(p, s') && Requested(p, s') && !s'.w.active
  {
    s' := s;
    if s.w.active {
      var g := |s.w.starts| - 1;
      StartingAfter(p, s, CaptureEnds(g));
      s' := Apply(s, CaptureEnds(g));
    }
  }

  lemma Takes(p: Plan, s: State)
    requires On(p, s) && Requested(p, s) && !s.w.active && p.request.StartStream?
    ensures On(p, Apply(s, Take)) && Accepted(p, Apply(s, Take))
  {
    StartingAfter(p, s, Take);
  }

  lemma {:induction false} ReadsAll(p: Plan, s: State) returns (s': State)
    requires On(p, s) && Accepted(p, s)
    ensures On(p, s') && Accepted(p, s') && s'.toBroker == []
    decreases |s.toBroker|
  {
    s' := s;
    if s.toBroker != [] {
      var q := Apply(s, Read);
      StartingAfter(p, s, Read);
      assert forall k | 0 <= k < |q.toBroker| :: q.toBroker[k] == s.toBroker[k + 1];
      s' := ReadsAll(p, q);
    }
  }

  /** The viewer of `id` is on a stream later than the first `n` and subscribed at `sub`, and
      the notice of `h` reached it. */
  predicate Stale(b: Broker, id: nat, sub: nat, n: nat, h: nat) {
    id in b.views && b.views[id].sub == sub && n <= b.views[id].g && LandedFrom(b.log, sub, h)
  }

  /** The call ended with a view of a stream that is not among the first `n`, for a claim that
      owns the desktop. */
  predicate Viewing(p: Plan, b: Broker) {
    && p.request.StartStream? && p.request.id in b.views && b.owner == p.request.id
    && b.views[p.request.id].sub == p.sub && p.n <= b.views[p.request.id].g
    && p.t in b.tasks && b.tasks[p.t].next == Over(true)
  }

  lemma Answered(p: Plan, s: State) returns (s': State)
    requires On(p, s) && Accepted(p, s) && s.toBroker == [] && p.request.StartStream?
    ensures On(p, s') && Viewing(p, s'.b) && s'.toBroker == []
  {
    var f :| PairedAt(s, f);
    OnlyAwait(s, f, p.t);
    assert TaskOk(s.b, p.t);
    assert f.Arrived?;
    OnAfter(p, s, Step(p.t, false));
    s' := Apply(s, Step(p.t, false));
    assert s'.toBroker == [];
  }

  /** A start that waits for the lock, or has it, can be led to its view. */
  lemma StartsStream(p: Plan, s: State) returns (s': State)
    requires On(p, s) && p.request.StartStream? && (Queued(p, s.b) || Holds(p, s.b))
    ensures On(p, s') && Viewing(p, s'.b) && s'.toBroker == []
  {
    s' := s;
    if Queued(p, s.b) {
      s' := GetsTheLock(p, s');
    }
    s' := Writes(p, s');
    s' := TakesStream(p, s');
  }

  lemma TakesStream(p: Plan, s: State) returns (s': State)
    requires On(p, s) && Requested(p, s) && p.request.StartStream?
    ensures On(p, s') && Viewing(p, s'.b) && s'.toBroker == []
  {
    s' := Settles(p, s);
    Takes(p, s');
    s' := ReadsAll(p, Apply(s', Take));
    s' := Answered(p, s');
  }

  /** The pending stream writes its notice. */
  lemma Notices(s: State, s': State, sub: nat, h: nat) returns (q: State)
    requires Leads(s, s') && Inv(s') && FlagMeansRunning(s'.w) && Pending(s', h)
    ensures Leads(s, q) && Inv(q) && FlagMeansRunning(q.w) && Noted(q, sub, h)
    ensures q.b == s'.b && q.w.starts == s'.w.starts
  {
    q := s';
    if Runs(q.w, h) {
      LeadsOn(s, q, CaptureEnds(h));
      StepKeeps(q, CaptureEnds(h));
      StepFlag(q, CaptureEnds(h));
      q := Apply(q, CaptureEnds(h));
    }
    if Reports(q.w, h) {
      LeadsOn(s, q, Report(h));
      StepKeeps(q, Report(h));
      StepFlag(q, Report(h));
      q := Apply(q, Report(h));
    }
  }

  lemma PendingGoesStale(s: State, t: nat, id: nat, h: nat) returns (s': State)
    requires Inv(s) && FlagMeansRunning(s.w) && t in s.b.tasks && s.b.tasks[t].next == Subscribe(id) && Pending(s, h)
    ensures Leads(s, s') && Stale(s'.b, id, |s.b.log|, |s.w.starts|, h)
  {
    var p, e := Plan(s, t, StartStream(id), |s.b.log|, Some(h), |s.w.starts|), Step(t, false);
    assert Run(s, []) == s;
    LeadsOn(s, s, e);
    StepKeeps(s, e);
    var q := Notices(s, Apply(s, e), |s.b.log|, h);
    s' := StartsStream(p, q);
  }

  /** Some continuation brings the notice of `h` to a start that subscribes now. */
  ghost predicate CanGoStale(s: State, id: nat, h: nat) {
    exists after :: Stale(Run(s, after).b, id, |s.b.log|, |s.w.starts|, h)
  }

  lemma PendingCanGoStale(s: State, t: nat, id: nat, h: nat)
    requires Inv(s) && FlagMeansRunning(s.w) && t in s.b.tasks && s.b.tasks[t].next == Subscribe(id) && Pending(s, h)
    ensures CanGoStale(s, id, h)
  {
    var s' := PendingGoesStale(s, t, id, h);
    var after :| Run(s, after) == s';
    assert Stale(Run(s, after).b, id, |s.b.log|, |s.w.starts|, h);
  }

  lemma SilentCannotGoStale(s: State, id: nat, h: nat)
    requires h < |s.w.starts| && !Pending(s, h)
    ensures !CanGoStale(s, id, h)
  {
    forall after
      ensures !Stale(Run(s, after).b, id, |s.b.log|, |s.w.starts|, h)
    {
      SilentStreamStaysSilent(s, after, h);
    }
  }

  /** In every run, the notice of a stream started earlier can reach a start that is about to
      subscribe exactly when that stream still has a task or an unread notice. */
  lemma OlderNoticeLandsExactly(events: seq<Event>, t: nat, id: nat, h: nat)
    requires var s := Run(Init, events);
             t in s.b.tasks && s.b.tasks[t].next == Subscribe(id) && h < |s.w.starts|
    ensures CanGoStale(Run(Init, events), id, h) <==> Pending(Run(Init, events), h)
  {
    var s := Run(Init, events);
    if Pending(s, h) {
      RunKeeps(events);
      RunFlag(events);
      PendingCanGoStale(s, t, id, h);
    } else {
      SilentCannotGoStale(s, id, h);
    }
  }

  /** At a switch nothing runs any more, so only a task that is about to report counts. */
  lemma SwitchNoticeLandsExactly(events: seq<Event>, t: nat, id: nat, h: nat)
    requires var s := Run(Init, events);
             t in s.b.tasks && s.b.tasks[t] == Task(Switch(id), Subscribe(id)) && h < |s.w.starts|
    ensures var s := Run(Init, events);
            CanGoStale(s, id, h) <==> Reports(s.w, h) || Ended(h) in s.toBroker
  {
    var s := Run(Init, events);
    RunKeeps(events);
    assert Window(s, s.b.tasks[t]);
    OlderNoticeLandsExactly(events, t, id, h);
  }

  // ---- a notice does reach a later stream ----

  /** Claim 1 streams. */
  const Streaming := State(Broker(1, None, None, true, map[1 := Task(Claim(true), Over(true))], map[1 := View(0, 0, false)], [], [], []),
                           Worker(Idle, true, Some(0), map[0 := Running], [1]), [], [])

  /** A state in which nothing but task `t` and what it holds differs from `s`. */
  function With(s: State, t: nat, next: Next, owner: nat, active: bool): State {
    s.(b := s.b.(owner := owner, claimLock := Some(t), active := active, tasks := s.b.tasks[t := Task(Claim(true), next)]))
  }

  lemma Enters(s: State, t: nat)
    requires Leads(Init, s) && t !in s.b.tasks && s.b.claimLock.None? && !s.b.active
    ensures Leads(Init, With(s, t, Bump, s.b.owner, false))
  {
    var begun := Apply(s, Begin(t, Claim(true)));
    var entered := With(s, t, Check, s.b.owner, false);
    LeadsOn(Init, s, Begin(t, Claim(true)));
    LeadsOn(Init, begun, Step(t, false));
    assert Apply(begun, Step(t, false)) == entered;
    LeadsOn(Init, entered, Step(t, false));
    assert Apply(entered, Step(t, false)) == With(s, t, Bump, s.b.owner, false);
  }

  lemma Bumps(s: State, t: nat, id: nat)
    requires Leads(Init, With(s, t, Bump, s.b.owner, false)) && id == s.b.owner + 1
    ensures Leads(Init, With(s, t, Poll(id), id, false))
  {
    var bump := With(s, t, Bump, s.b.owner, false);
    LeadsOn(Init, bump, Step(t, false));
    assert Apply(bump, Step(t, false)) == With(s, t, Poll(id), id, false);
  }

  lemma Polls(s: State, t: nat, id: nat)
    requires Leads(Init, With(s, t, Poll(id), id, false))
    ensures Leads(Init, With(s, t, Swap(id), id, false))
  {
    var poll := With(s, t, Poll(id), id, false);
    LeadsOn(Init, poll, Step(t, false));
    assert Apply(poll, Step(t, false)) == With(s, t, Swap(id), id, false);
  }

  lemma Swaps(s: State, t: nat, id: nat)
    requires Leads(Init, With(s, t, Swap(id), id, false))
    ensures Leads(Init, With(s, t, Subscribe(id), id, true))
  {
    var swap := With(s, t, Swap(id), id, false);
    LeadsOn(Init, swap, Step(t, false));
    assert Apply(swap, Step(t, false)) == With(s, t, Subscribe(id), id, true);
  }

  lemma ClaimsDesktop(s: State, t: nat, id: nat) returns (s': State)
    requires Leads(Init, s) && t !in s.b.tasks && s.b.claimLock.None? && !s.b.active && id == s.b.owner + 1
    ensures Leads(Init, s') && s' == With(s, t, Subscribe(id), id, true)
  {
    Enters(s, t);
    Bumps(s, t, id);
    Polls(s, t, id);
    Swaps(s, t, id);
    s' := With(s, t, Subscribe(id), id, true);
  }

  /** The broker once the answer to the start of `t` is there. */
  function Reached(b: Broker, t: nat, id: nat, r: Reply): Broker
    requires t in b.tasks
  {
    Goes(b, t, Await(StartStream(id), |b.log|)).(requestLock := Some(t), responses := [r])
  }

  lemma TakesTheLock(s: State, t: nat, id: nat) returns (s': State)
    requires Leads(Init, s) && t in s.b.tasks && s.b.tasks[t].next == Subscribe(id) && s.b.requestLock.None? && s.b.waiters == []
    ensures Leads(Init, s') && s' == s.(b := Goes(s.b, t, Write(StartStream(id), |s.b.log|)).(requestLock := Some(t)))
  {
    var e := Step(t, false);
    LeadsOn(Init, s, e);
    LeadsOn(Init, Apply(s, e), e);
    s' := Apply(Apply(s, e), e);
    assert s.toWorker + [] == s.toWorker;
  }

  lemma AsksWorker(s: State, t: nat, id: nat) returns (s': State)
    requires Leads(Init, s) && t in s.b.tasks && s.b.tasks[t].next == Subscribe(id) && s.b.requestLock.None? && s.b.waiters == []
    ensures Leads(Init, s')
    ensures s' == s.(b := Goes(s.b, t, Await(StartStream(id), |s.b.log|)).(requestLock := Some(t)), toWorker := s.toWorker + [StartStream(id)])
  {
    var q := TakesTheLock(s, t, id);
    LeadsOn(Init, q, Step(t, false));
    s' := Apply(q, Step(t, false));
  }

  lemma GetsAnswer(s: State, id: nat)
    requires Leads(Init, s) && s.w.loop.Idle? && s.toWorker == [StartStream(id)] && s.toBroker == [] && s.b.responses == []
    ensures var taken := DoTake(s.w, StartStream(id));
            Leads(Init, s.(b := s.b.(responses := [taken.reply.value]), w := taken.w, toWorker := []))
  {
    var q := Apply(s, Take);
    LeadsOn(Init, s, Take);
    LeadsOn(Init, q, Read);
    assert q.toBroker[1..] == [];
  }

  lemma Concludes(s: State, t: nat, id: nat)
    requires Leads(Init, s) && t in s.b.tasks && s.b.tasks[t].next.Await? && s.b.tasks[t].next.request == StartStream(id) && s.b.responses != []
    ensures Leads(Init, s.(b := DoStartAnswered(s.b, t, id, s.b.tasks[t].next.sub)))
  {
    LeadsOn(Init, s, Step(t, false));
    assert s.toWorker + [] == s.toWorker;
  }

  predicate Calm(s: State) {
    s.w.loop.Idle? && s.toWorker == [] && s.toBroker == [] && s.b.responses == [] && s.b.requestLock.None? && s.b.waiters == []
  }

  /** A start runs through from its subscription, without anything in between. */
  lemma RunsThrough(s: State, t: nat, id: nat)
    requires Leads(Init, s) && t in s.b.tasks && s.b.tasks[t].next == Subscribe(id) && Calm(s)
    ensures var taken := DoTake(s.w, StartStream(id));
            Leads(Init, s.(b := DoStartAnswered(Reached(s.b, t, id, taken.reply.value), t, id, |s.b.log|), w := taken.w))
  {
    var taken := DoTake(s.w, StartStream(id));
    var q := AsksWorker(s, t, id);
    GetsAnswer(q, id);
    q := s.(b := Reached(s.b, t, id, taken.reply.value), w := taken.w);
    Concludes(q, t, id);
  }

  lemma StreamingIsReached()
    ensures Leads(Init, Streaming)
  {
    assert Run(Init, []) == Init;
    var s := ClaimsDesktop(Init, 1, 1);
    RunsThrough(s, 1, 1);
  }

  /** A stop has lowered the broker's flag, its request is not written yet, and claim 2 is
      about to start. */
  function Overtaking(forwarder: Forwarder): State {
    State(Broker(2, Some(3), None, true,
                 map[1 := Task(Claim(true), Over(true)), 2 := Task(Stop, Queue(StopStream, 0)), 3 := Task(Claim(true), Subscribe(2))],
                 map[1 := View(0, 0, false)], [], [], []),
          Worker(Idle, forwarder.Running?, Some(0), map[0 := forwarder], [1]), [], [])
  }

  lemma StopsInTime(s: State) returns (s': State)
    requires Leads(Init, s) && 2 !in s.b.tasks
    ensures Leads(Init, s') && s' == s.(b := s.b.(active := false, tasks := s.b.tasks[2 := Task(Stop, Queue(StopStream, 0))]))
  {
    LeadsOn(Init, s, Begin(2, Stop));
    s' := Apply(s, Begin(2, Stop));
    LeadsOn(Init, s', Step(2, false));
    assert s.toWorker + [] == s.toWorker;
    s' := Apply(s', Step(2, false));
  }

  lemma OvertakingIsReached(forwarder: Forwarder)
    ensures Leads(Init, Overtaking(forwarder))
  {
    StreamingIsReached();
    LeadsOn(Init, Streaming, CaptureEnds(0));
    var s := StopsInTime(if forwarder.Ending? then Apply(Streaming, CaptureEnds(0)) else Streaming);
    s := ClaimsDesktop(s, 3, 2);
    assert s == Overtaking(forwarder);
  }

  /** The notice of stream 0 reaches the viewer of stream 1: it lowers the broker's flag and
      ends that viewer's subscription while stream 1 runs on. */
  lemma OldNoticeEndsTheNewStream()
    ensures exists s :: Leads(Init, s) && 2 in s.b.views && s.b.views[2] == View(1, 0, false) && s.b.log == [Ended(0)] && !s.b.active && Runs(s.w, 1)
  {
    OvertakingIsReached(Ending);
    var s := Overtaking(Ending);
    RunsThrough(s, 3, 2);
    var taken := DoTake(s.w, StartStream(2));
    s := s.(b := DoStartAnswered(Reached(s.b, 3, 2, taken.reply.value), 3, 2, 0), w := taken.w);
    LeadsOn(Init, s, Report(0));
    LeadsOn(Init, Apply(s, Report(0)), Read);
    s := Apply(Apply(s, Report(0)), Read);
    assert s.b.log == [Ended(0)];
  }
}
