/**
  How each stage of a call for the desktop stream ends, and that what the worker writes is
  shown (broker.rs and worker.rs of rivetlink-agent).
 */
module CallOutcomes {
  import opened Common
  import opened Desktop
  import opened EndNotices
  import opened Grants

  // ---- waiting for the previous stream ----

  /** Every look of `t` found the previous stream active, with time left. */
  predicate Patient(s: State, t: nat, events: seq<Event>) {
    forall k | 0 <= k < |events| && events[k].Step? && events[k].t == t :: Run(s, events[..k]).b.active && !events[k].expired
  }

  predicate Polls(s: State, t: nat, id: nat) {
    t in s.b.tasks && s.b.tasks[t].next == Poll(id)
  }

  lemma StepWaits(s: State, t: nat, id: nat, e: Event)
    requires Inv(s) && Polls(s, t, id) && (e.Step? && e.t == t ==> s.b.active && !e.expired)
    ensures Polls(Apply(s, e), t, id) && Apply(s, e).b.owner == s.b.owner && Apply(s, e).b.claimLock == Some(t)
  {
    assert TaskOk(s.b, t);
    if !(e.Step? && e.t == t) {
      OthersLeave(s, t, e);
    }
  }

  lemma {:induction false} StillWaits(s: State, t: nat, id: nat, events: seq<Event>)
    requires Inv(s) && Polls(s, t, id) && Patient(s, t, events)
    ensures var s' := Run(s, events);
            Inv(s') && Polls(s', t, id) && s'.b.owner == s.b.owner && s'.b.claimLock == Some(t)
    decreases |events|
  {
    if events == [] {
      assert TaskOk(s.b, t);
    } else {
      var front, e := events[..|events| - 1], Last(events);
      forall k | 0 <= k < |front| && front[k].Step? && front[k].t == t
        ensures Run(s, front[..k]).b.active && !front[k].expired
      {
        assert front[..k] == events[..k] && front[k] == events[k];
      }
      StillWaits(s, t, id, front);
      assert e == events[|events| - 1];
      StepWaits(Run(s, front), t, id, e);
      StepKeeps(Run(s, front), e);
    }
  }

  /** In every run, a claim that has taken over waits, and keeps the desktop, for as long as it
      finds the previous stream active with time left. The first look that finds it gone lets
      the claim go on; the first that finds it there with the time up ends it and frees the
      lock. */
  lemma WaitIsDecidedExactly(events: seq<Event>, t: nat, id: nat, waiting: seq<Event>, expired: bool)
    requires Polls(Run(Init, events), t, id) && Patient(Run(Init, events), t, waiting)
    ensures var s := Run(Run(Init, events), waiting);
            var s' := Apply(s, Step(t, expired));
            && Polls(s, t, id) && t in s'.b.tasks && s'.b.owner == Run(Init, events).b.owner
            && (s'.b.tasks[t].next == Swap(id) <==> !s.b.active)
            && (s'.b.tasks[t].next == Over(false) && s'.b.claimLock.None? <==> s.b.active && expired)
            && (s' == s <==> s.b.active && !expired)
  {
    RunKeeps(events);
    StillWaits(Run(Init, events), t, id, waiting);
  }

  /** In every run, a call that raises the flag finds it down: the second check never refuses. */
  lemma SwapNeverRefuses(events: seq<Event>, t: nat, id: nat, expired: bool)
    requires var b := Run(Init, events).b;
             t in b.tasks && b.tasks[t].next == Swap(id)
    ensures var s := Run(Init, events);
            var s' := Apply(s, Step(t, expired));
            !s.b.active && s'.b.active && t in s'.b.tasks && s'.b.tasks[t].next == Subscribe(id)
  {
    RunKeeps(events);
    var s := Run(Init, events);
    assert TaskOk(s.b, t) && FlagOk(s.b, s.b.tasks[t]);
  }

  // ---- the start's answer ----

  /** In every run, a start that was answered ends its call: with a view of the stream that was
      started for this very claim, seen from where the call subscribed; or, if the worker
      refused, without one and with the flag lowered again. Both locks are free after it. */
  lemma StartIsAnsweredExactly(events: seq<Event>, t: nat, id: nat, sub: nat, expired: bool)
    requires var b := Run(Init, events).b;
             t in b.tasks && b.tasks[t].next == Await(StartStream(id), sub) && b.responses != []
    ensures var s := Run(Init, events);
            var b, r := DoStep(s.b, t, expired), s.b.responses[0];
            && b.claimLock.None? && b.requestLock.None? && b.responses == [] && b.owner == s.b.owner == id
            && (r.Started? || r.Refused?)
            && (r.Started? ==> r.g < |s.w.starts| && s.w.starts[r.g] == id
                               && b.tasks[t].next == Over(true) && b.views == s.b.views[id := View(r.g, sub, s.b.tasks[t].call.Switch?)])
            && (r.Refused? ==> b.tasks[t].next == Over(false) && b.views == s.b.views && !b.active)
  {
    RunKeeps(events);
    var s := Run(Init, events);
    var f :| PairedAt(s, f);
    assert TaskOk(s.b, t);
    OnlyAwait(s, f, t);
    assert s.b.responses[1..] == [];
  }

  // ---- the worker's side of a stop ----

  predicate JoinsWithoutHandle(w: Worker) {
    w.loop.Joining? ==> w.handle.None?
  }

  lemma HandleStep(s: State, e: Event)
    requires JoinsWithoutHandle(s.w)
    ensures JoinsWithoutHandle(Apply(s, e).w)
  {
    if e.Step? && e.t in s.b.tasks {
      StepSameStreams(s, e.t, e.expired);
    }
  }

  lemma {:induction false} RunHandle(events: seq<Event>)
    ensures JoinsWithoutHandle(Run(Init, events).w)
    decreases |events|
  {
    if events != [] {
      RunHandle(events[..|events| - 1]);
      HandleStep(Run(Init, events[..|events| - 1]), Last(events));
    }
  }

  /** In every run, a stop that had a stream to end leaves the worker with none: not held, not
      running, flag down, and its answer last on the wire. */
  lemma JoinEmptiesWorker(events: seq<Event>)
    requires Joins(Run(Init, events).w)
    ensures var s := Run(Init, events);
            var s' := Apply(s, Join);
            s'.w.handle.None? && s'.w.loop.Idle? && !s'.w.active && NoneRuns(s'.w) && s'.toBroker == s.toBroker + [Answer(Stopped)]
  {
    RunKeeps(events);
    RunHandle(events);
    JoinStreams(Run(Init, events).w);
  }

  /** A worker that has dealt with a stop, before anything else is asked of it, holds no stream. */
  predicate StopEmpties(s: State) {
    Awaited(s.b) && Outstanding(s.b).StopStream? && s.toWorker == [] && s.w.loop.Idle? ==> s.w.handle.None?
  }

  lemma TakeEmpties(s: State)
    requires Inv(s)
    ensures StopEmpties(Apply(s, Take)) || Apply(s, Take) == s
  {
    var f :| PairedAt(s, f);
  }

  lemma CallEmpties(s: State, t: nat, expired: bool)
    requires Inv(s) && StopEmpties(s) && t in s.b.tasks
    ensures StopEmpties(DoCall(s, t, expired))
  {
    assert TaskOk(s.b, t);
    StepSameStreams(s, t, expired);
    StepAwaits(s.b, t, expired);
  }

  /** A step leaves the request that is waited for as it is, or ends it, or comes to wait for
      one it has just written. */
  lemma StepAwaits(b: Broker, t: nat, expired: bool)
    requires Locks(b) && t in b.tasks
    ensures var b' := DoStep(b, t, expired);
            Awaited(b') ==> (Awaited(b) && Outstanding(b') == Outstanding(b)) || b.tasks[t].next.Write?
  {
    assert TaskOk(b, t);
    if b.requestLock.Some? && b.requestLock.value in b.tasks {
      assert TaskOk(b, b.requestLock.value);
    }
  }

  lemma BeginEmpties(s: State, t: nat, call: Call)
    requires Inv(s) && StopEmpties(s)
    ensures StopEmpties(Apply(s, Begin(t, call)))
  {
  }

  lemma StepEmpties(s: State, e: Event)
    requires Inv(s) && StopEmpties(s) && JoinsWithoutHandle(s.w)
    ensures StopEmpties(Apply(s, e))
  {
    if e.Step? {
      if e.t in s.b.tasks {
        CallEmpties(s, e.t, e.expired);
      }
    } else if e.Begin? {
      BeginEmpties(s, e.t, e.call);
    } else if e.Take? {
      TakeEmpties(s);
    }
  }

  lemma {:induction false} RunEmpties(events: seq<Event>)
    ensures StopEmpties(Run(Init, events))
    decreases |events|
  {
    if events != [] {
      var front := events[..|events| - 1];
      RunEmpties(front);
      RunKeeps(front);
      RunHandle(front);
      StepEmpties(Run(Init, front), Last(events));
    }
  }

  /** In every run, a stop that was answered was carried out: the worker holds and runs no
      stream. A stop then ends with success; a switch goes on to its restart. Either way the
      request lock is free and nothing else has changed. */
  lemma StopIsAnsweredExactly(events: seq<Event>, t: nat, sub: nat, expired: bool)
    requires var b := Run(Init, events).b;
             t in b.tasks && b.tasks[t].next == Await(StopStream, sub) && b.responses != []
    ensures var s := Run(Init, events);
            var b, call := DoStep(s.b, t, expired), s.b.tasks[t].call;
            && s.b.responses == [Stopped] && NoneRuns(s.w) && !s.w.active && s.w.handle.None? && s.w.loop.Idle?
            && (call.Stop? || call.Switch?)
            && b == s.b.(requestLock := None, responses := [],
                         tasks := s.b.tasks[t := Task(call, if call.Stop? then Over(true) else Swap(call.id))])
  {
    RunKeeps(events);
    RunEmpties(events);
    var s := Run(Init, events);
    var f :| PairedAt(s, f);
    assert TaskOk(s.b, t);
    OnlyAwait(s, f, t);
    assert s.b.responses[1..] == [];
  }

  /** Any other request ends with success once it is answered, and changes nothing else. */
  lemma OtherIsAnsweredExactly(events: seq<Event>, t: nat, sub: nat, expired: bool)
    requires var b := Run(Init, events).b;
             t in b.tasks && b.tasks[t].next == Await(OtherRequest, sub) && b.responses != []
    ensures var s := Run(Init, events);
            && s.b.responses == [OtherReply] && s.b.tasks[t].call.Other?
            && DoStep(s.b, t, expired) == s.b.(requestLock := None, responses := [], tasks := s.b.tasks[t := Task(Other, Over(true))])
  {
    RunKeeps(events);
    var s := Run(Init, events);
    var f :| PairedAt(s, f);
    assert TaskOk(s.b, t);
    OnlyAwait(s, f, t);
    assert s.b.responses[1..] == [];
  }

  // ---- what the worker wrote is shown ----

  function Shown(m: seq<Message>): seq<Message> {
    if m == [] then [] else (if m[0].Answer? then [] else [m[0]]) + Shown(m[1..])
  }

  function Answers(m: seq<Message>): seq<Reply> {
    if m == [] then [] else (if m[0].Answer? then [m[0].r] else []) + Answers(m[1..])
  }

  predicate HasEnd(m: seq<Message>) {
    m != [] && (m[0].Ended? || HasEnd(m[1..]))
  }

  function Reading(n: nat): seq<Event> {
    if n == 0 then [] else [Read] + Reading(n - 1)
  }

  lemma {:induction false} RunPrepends(s: State, e: Event, events: seq<Event>)
    ensures Run(s, [e] + events) == Run(Apply(s, e), events)
    decreases |events|
  {
    var all := [e] + events;
    if events == [] {
      assert all == [e] && all[..0] == [];
      assert Run(s, []) == s;
    } else {
      RunPrepends(s, e, events[..|events| - 1]);
      assert all[..|all| - 1] == [e] + events[..|events| - 1];
    }
  }

  /** `s'` is `s` with all that was on the socket read. */
  predicate AllRead(s: State, s': State) {
    && s'.toBroker == [] && s'.w == s.w && s'.b.tasks == s.b.tasks
    && s'.b.log == s.b.log + Shown(s.toBroker) && s'.b.responses == s.b.responses + Answers(s.toBroker)
    && (s'.b.active <==> s.b.active && !HasEnd(s.toBroker))
  }

  lemma ReadFirst(s: State, s': State)
    requires s.toBroker != [] && AllRead(Apply(s, Read), s')
    ensures AllRead(s, s')
  {
    var q, m := Apply(s, Read), s.toBroker[0];
    if m.Answer? {
      assert q.b.responses + Answers(q.toBroker) == s.b.responses + ([m.r] + Answers(q.toBroker));
    } else {
      assert q.b.log + Shown(q.toBroker) == s.b.log + ([m] + Shown(q.toBroker));
    }
  }

  /** Reading the socket to its end shows every frame and end notice on it, in order, hands over
      every answer, and lowers the flag exactly if an end notice was among them. */
  lemma {:induction false} SocketDrains(s: State)
    ensures AllRead(s, Run(s, Reading(|s.toBroker|)))
    decreases |s.toBroker|
  {
    if s.toBroker == [] {
      assert Run(s, []) == s;
    } else {
      var q := Apply(s, Read);
      SocketDrains(q);
      RunPrepends(s, Read, Reading(|q.toBroker|));
      ReadFirst(s, Run(q, Reading(|q.toBroker|)));
    }
  }

  lemma {:induction false} ShownAppends(m: seq<Message>, x: Message)
    requires !x.Answer?
    ensures Shown(m + [x]) == Shown(m) + [x]
  {
    if m == [] {
      assert Shown([x][1..]) == [];
    } else {
      ShownAppends(m[1..], x);
      assert (m + [x])[1..] == m[1..] + [x];
    }
  }

  /** A frame of a running stream can be shown, after all that is on its way; one of a stream
      that does not run never gets on its way. */
  lemma RunningStreamShows(s: State, g: nat)
    ensures var s' := Apply(s, Emit(g));
            Run(s', Reading(|s'.toBroker|)).b.log == s.b.log + Shown(s.toBroker) + if Runs(s.w, g) then [Frame(g)] else []
  {
    SocketDrains(Apply(s, Emit(g)));
    ShownAppends(s.toBroker, Frame(g));
  }
}
