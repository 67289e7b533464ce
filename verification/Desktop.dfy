/**
  Who has the desktop stream, and what a display switch shows (broker.rs and worker.rs of
  rivetlink-agent): the takeover protocol around the owner counter and the claim lock, the
  request protocol on the worker's socket, and the worker's stream tasks, composed.

  Every atomic action of every call is one event; requests are not cancelled half way.
 */
module Desktop {
  import opened Common

  // ---- the socket between broker and worker ----

  /** `id` and `g` only name things: the claim a stream is started for, and the stream. */
  datatype Request = StartStream(id: nat) | StopStream | OtherRequest

  datatype Reply = Started(g: nat) | Refused | Stopped | OtherReply

  datatype Message = Frame(g: nat) | Ended(g: nat) | Answer(r: Reply)

  // ---- calls in the broker ----

  datatype Call = Claim(takeOver: bool) | Switch(id: nat) | Stop | Other

  /** What a call does next. `sub` is where in the broadcast its new stream will start. */
  datatype Next =
    | Enter
    | Check
    | Bump
    | Poll(id: nat)
    | StoreFlag
    | Swap(id: nat)
    | Subscribe(id: nat)
    | Queue(request: Request, sub: nat)
    | Write(request: Request, sub: nat)
    | Await(request: Request, sub: nat)
    | Over(ok: bool)

  datatype Task = Task(call: Call, next: Next)

  /** A viewer's stream handle: `switched` if it came from a display switch. */
  datatype View = View(g: nat, sub: nat, switched: bool)

  /** `waiters` is the line at the request lock. */
  datatype Broker = Broker(owner: nat, claimLock: Option<nat>, requestLock: Option<nat>, active: bool,
                           tasks: map<nat, Task>, views: map<nat, View>, responses: seq<Reply>, log: seq<Message>,
                           waiters: seq<nat>)

  // ---- the worker ----

  datatype Forwarder = Running | Ending

  datatype Loop = Idle | Joining(g: nat)

  /** `starts[g]` is the claim that stream `g` was started for. */
  datatype Worker = Worker(loop: Loop, active: bool, handle: Option<nat>, forwarders: map<nat, Forwarder>, starts: seq<nat>)

  datatype State = State(b: Broker, w: Worker, toWorker: seq<Request>, toBroker: seq<Message>)

  const Init := State(Broker(0, None, None, false, map[], map[], [], [], []), Worker(Idle, false, None, map[], []), [], [])

  datatype Event =
    | Begin(t: nat, call: Call)
    | Step(t: nat, expired: bool)
    | Take
    | Join
    | Emit(g: nat)
    | Exit(g: nat)
    | CaptureEnds(g: nat)
    | Report(g: nat)
    | Read

  function Goes(b: Broker, t: nat, next: Next): Broker
    requires t in b.tasks
  {
    b.(tasks := b.tasks[t := b.tasks[t].(next := next)])
  }

  /** The call returns; a claim or switch drops the claim lock. */
  function Ends(b: Broker, t: nat, ok: bool): Broker
    requires t in b.tasks
  {
    var u := Goes(b, t, Over(ok));
    if b.claimLock == Some(t) then u.(claimLock := None) else u
  }

  function DoBegin(b: Broker, t: nat, call: Call): Broker {
    if t in b.tasks || (call.Switch? && call.id !in b.views) then b
    else
      var first := if call.Stop? then StoreFlag else if call.Other? then Queue(OtherRequest, 0) else Enter;
      b.(tasks := b.tasks[t := Task(call, first)])
  }

  /** A claim waits for the lock; a switch gives up when it is taken, or when it lost the
      desktop. */
  function DoEnter(b: Broker, t: nat): Broker
    requires t in b.tasks
  {
    if b.tasks[t].call.Claim? then
      if b.claimLock.Some? then b else Goes(b, t, Check).(claimLock := Some(t))
    else if b.claimLock.Some? || (b.tasks[t].call.Switch? && b.owner != b.tasks[t].call.id) then Goes(b, t, Over(false))
    else Goes(b, t, StoreFlag).(claimLock := Some(t))
  }

  function DoCheck(b: Broker, t: nat): Broker
    requires t in b.tasks
  {
    if b.tasks[t].call.Claim? && !b.tasks[t].call.takeOver && b.active then Ends(b, t, false) else Goes(b, t, Bump)
  }

  function DoBump(b: Broker, t: nat): Broker
    requires t in b.tasks
  {
    Goes(b, t, Poll(b.owner + 1)).(owner := b.owner + 1)
  }

  function DoPoll(b: Broker, t: nat, id: nat, expired: bool): Broker
    requires t in b.tasks
  {
    if !b.active then Goes(b, t, Swap(id)) else if expired then Ends(b, t, false) else b
  }

  function DoStoreFlag(b: Broker, t: nat): Broker
    requires t in b.tasks
  {
    Goes(b, t, Queue(StopStream, 0)).(active := false)
  }

  function DoSwap(b: Broker, t: nat, id: nat): Broker
    requires t in b.tasks
  {
    if b.active then Ends(b, t, false) else Goes(b, t, Subscribe(id)).(active := true)
  }

  function DoSubscribe(b: Broker, t: nat, id: nat): Broker
    requires t in b.tasks
  {
    Goes(b, t, Queue(StartStream(id), |b.log|))
  }

  /** The request lock is fair: who finds it taken waits in line, and only the first in line
      gets it. */
  function DoQueue(b: Broker, t: nat, request: Request, sub: nat): Broker
    requires t in b.tasks
  {
    if t !in b.waiters && (b.requestLock.Some? || b.waiters != []) then b.(waiters := b.waiters + [t])
    else if b.requestLock.Some? || (b.waiters != [] && b.waiters[0] != t) then b
    else Goes(b, t, Write(request, sub)).(requestLock := Some(t), waiters := if b.waiters == [] then [] else b.waiters[1..])
  }

  function DoWrite(b: Broker, t: nat, request: Request, sub: nat): Broker
    requires t in b.tasks
  {
    Goes(b, t, Await(request, sub))
  }

  function Received(b: Broker): Broker
    requires b.responses != []
  {
    b.(responses := b.responses[1..], requestLock := None)
  }

  function DoStopAnswered(b: Broker, t: nat): Broker
    requires t in b.tasks && b.responses != []
  {
    var r := b.responses[0];
    if r.Stopped? && b.tasks[t].call.Switch? then Goes(Received(b), t, Swap(b.tasks[t].call.id))
    else Ends(Received(b), t, r.Stopped?)
  }

  function DoStartAnswered(b: Broker, t: nat, id: nat, sub: nat): Broker
    requires t in b.tasks && b.responses != []
  {
    var r := b.responses[0];
    if r.Started? then
      b.(tasks := b.tasks[t := b.tasks[t].(next := Over(true))], claimLock := None, requestLock := None,
         responses := b.responses[1..], views := b.views[id := View(r.g, sub, b.tasks[t].call.Switch?)])
    else Ends(Received(b), t, false).(active := false)
  }

  function DoAwait(b: Broker, t: nat, request: Request, sub: nat): Broker
    requires t in b.tasks
  {
    if b.responses == [] then b
    else
      match request
      case OtherRequest => Ends(Received(b), t, true)
      case StopStream => DoStopAnswered(b, t)
      case StartStream(id) => DoStartAnswered(b, t, id, sub)
  }

  function DoStep(b: Broker, t: nat, expired: bool): Broker
    requires t in b.tasks
  {
    match b.tasks[t].next
    case Enter => DoEnter(b, t)
    case Check => DoCheck(b, t)
    case Bump => DoBump(b, t)
    case Poll(id) => DoPoll(b, t, id, expired)
    case StoreFlag => DoStoreFlag(b, t)
    case Swap(id) => DoSwap(b, t, id)
    case Subscribe(id) => DoSubscribe(b, t, id)
    case Queue(request, sub) => DoQueue(b, t, request, sub)
    case Write(request, sub) => DoWrite(b, t, request, sub)
    case Await(request, sub) => DoAwait(b, t, request, sub)
    case Over(ok) => b
  }

  /** The worker's request loop takes a request and may answer it at once. */
  datatype Taken = Taken(w: Worker, reply: Option<Reply>)

  function DoTake(w: Worker, request: Request): Taken {
    match request
    case OtherRequest => Taken(w, Some(OtherReply))
    case StopStream =>
      if w.handle.Some? then Taken(w.(loop := Joining(w.handle.value), handle := None), None)
      else Taken(w.(active := false), Some(Stopped))
    case StartStream(id) =>
      if w.active then Taken(w, Some(Refused))
      else
        var g := |w.starts|;
        Taken(Worker(w.loop, true, Some(g), w.forwarders[g := Running], w.starts + [id]), Some(Started(g)))
  }

  /** The stream task is gone: the stop is answered. */
  predicate Joins(w: Worker) {
    w.loop.Joining? && w.loop.g !in w.forwarders
  }

  predicate Runs(w: Worker, g: nat) {
    g in w.forwarders && w.forwarders[g] == Running
  }

  predicate Reports(w: Worker, g: nat) {
    g in w.forwarders && w.forwarders[g] == Ending
  }

  /** The broker's reader task. */
  function DoRead(b: Broker, m: Message): Broker {
    match m
    case Frame(g) => b.(log := b.log + [m])
    case Ended(g) => b.(log := b.log + [m], active := false)
    case Answer(r) => b.(responses := b.responses + [r])
  }

  function DoCall(s: State, t: nat, expired: bool): State
    requires t in s.b.tasks
  {
    var next := s.b.tasks[t].next;
    s.(b := DoStep(s.b, t, expired), toWorker := s.toWorker + if next.Write? then [next.request] else [])
  }

  function Apply(s: State, e: Event): State {
    match e
    case Begin(t, call) => s.(b := DoBegin(s.b, t, call))
    case Step(t, expired) => if t in s.b.tasks then DoCall(s, t, expired) else s
    case Take =>
      if !s.w.loop.Idle? || s.toWorker == [] then s
      else
        var taken := DoTake(s.w, s.toWorker[0]);
        s.(w := taken.w, toWorker := s.toWorker[1..],
           toBroker := s.toBroker + if taken.reply.Some? then [Answer(taken.reply.value)] else [])
    case Join =>
      if Joins(s.w) then s.(w := s.w.(loop := Idle, active := false), toBroker := s.toBroker + [Answer(Stopped)]) else s
    case Emit(g) =>
      // a stream task that was told to stop may still write some frames
      if Runs(s.w, g) then s.(toBroker := s.toBroker + [Frame(g)]) else s
    case Exit(g) =>
      if Runs(s.w, g) && s.w.loop == Joining(g) then s.(w := s.w.(forwarders := s.w.forwarders - {g})) else s
    case CaptureEnds(g) =>
      // the flag falls before the notice is written
      if Runs(s.w, g) then s.(w := s.w.(forwarders := s.w.forwarders[g := Ending], active := false)) else s
    case Report(g) =>
      if Reports(s.w, g) then s.(w := s.w.(forwarders := s.w.forwarders - {g}), toBroker := s.toBroker + [Ended(g)]) else s
    case Read =>
      if s.toBroker == [] then s else s.(b := DoRead(s.b, s.toBroker[0]), toBroker := s.toBroker[1..])
  }

  function Run(s: State, events: seq<Event>): State
    decreases |events|
  {
    if events == [] then s else Apply(Run(s, events[..|events| - 1]), Last(events))
  }

  // ---- who holds which lock ----

  predicate Shape(x: Task) {
    match x.next
    case Enter => x.call.Claim? || x.call.Switch?
    case Check => x.call.Claim?
    case Bump => x.call.Claim?
    case Poll(_) => x.call.Claim?
    case StoreFlag => x.call.Switch? || x.call.Stop?
    case Swap(id) => x.call.Claim? || x.call == Switch(id)
    case Subscribe(id) => x.call.Claim? || x.call == Switch(id)
    case Queue(request, _) => ShapeOf(x.call, request)
    case Write(request, _) => ShapeOf(x.call, request)
    case Await(request, _) => ShapeOf(x.call, request)
    case Over(_) => true
  }

  predicate ShapeOf(call: Call, request: Request) {
    match request
    case StartStream(id) => call.Claim? || call == Switch(id)
    case StopStream => call.Switch? || call.Stop?
    case OtherRequest => call.Other?
  }

  predicate HoldsClaim(x: Task) {
    (x.call.Claim? || x.call.Switch?) && !x.next.Enter? && !x.next.Over?
  }

  predicate HoldsRequest(x: Task) {
    x.next.Write? || x.next.Await?
  }

  /** The claim a call acts for, once it has one. */
  function ActsFor(x: Task): Option<nat> {
    if x.call.Switch? then Some(x.call.id)
    else match x.next
      case Poll(id) => Some(id)
      case Swap(id) => Some(id)
      case Subscribe(id) => Some(id)
      case Queue(StartStream(id), _) => Some(id)
      case Write(StartStream(id), _) => Some(id)
      case Await(StartStream(id), _) => Some(id)
      case _ => None
  }

  predicate TaskOk(b: Broker, t: nat)
    requires t in b.tasks
  {
    var x := b.tasks[t];
    && Shape(x)
    && (HoldsClaim(x) <==> b.claimLock == Some(t))
    && (HoldsRequest(x) <==> b.requestLock == Some(t))
    && (HoldsClaim(x) && ActsFor(x).Some? ==> ActsFor(x).value == b.owner)
    && (HoldsClaim(x) && x.call.Claim? && ActsFor(x).Some? ==> ActsFor(x).value !in b.views)
  }

  predicate Locks(b: Broker) {
    && (forall t | t in b.tasks :: TaskOk(b, t))
    && (b.claimLock.Some? ==> b.claimLock.value in b.tasks)
    && (b.requestLock.Some? ==> b.requestLock.value in b.tasks)
    && Granted(b.views, b.owner)
  }

  predicate Granted(views: map<nat, View>, owner: nat) {
    forall id | id in views :: id <= owner
  }

  lemma BeginLocks(b: Broker, t: nat, call: Call)
    requires Locks(b)
    ensures Locks(DoBegin(b, t, call))
  {
  }

  predicate SameOrMine(before: Option<nat>, after: Option<nat>, t: nat) {
    before == after || ((before.None? || before == Some(t)) && (after.None? || after == Some(t)))
  }

  /** A step of `t` that touches only its own locks, and owner or views only under the claim
      lock. */
  predicate OwnStep(b: Broker, b': Broker, t: nat) {
    && t in b.tasks && t in b'.tasks && b'.tasks == b.tasks[t := b'.tasks[t]] && b'.tasks[t].call == b.tasks[t].call
    && SameOrMine(b.claimLock, b'.claimLock, t) && SameOrMine(b.requestLock, b'.requestLock, t)
    && (b.claimLock == Some(t) || (b'.owner == b.owner && b'.views == b.views))
    && Granted(b'.views, b'.owner)
  }

  lemma OwnStepLocks(b: Broker, b': Broker, t: nat)
    requires Locks(b) && OwnStep(b, b', t) && TaskOk(b', t)
    ensures Locks(b')
  {
    forall u | u in b'.tasks
      ensures TaskOk(b', u)
    {
      if u != t {
        assert TaskOk(b, u);
      }
    }
  }

  lemma EnterLocks(b: Broker, t: nat)
    requires t in b.tasks && TaskOk(b, t) && Granted(b.views, b.owner) && b.tasks[t].next == Enter
    ensures OwnStep(b, DoEnter(b, t), t) && TaskOk(DoEnter(b, t), t)
  {
  }

  lemma CheckLocks(b: Broker, t: nat)
    requires t in b.tasks && TaskOk(b, t) && Granted(b.views, b.owner) && b.tasks[t].next == Check
    ensures OwnStep(b, DoCheck(b, t), t) && TaskOk(DoCheck(b, t), t)
  {
  }

  lemma BumpLocks(b: Broker, t: nat)
    requires t in b.tasks && TaskOk(b, t) && Granted(b.views, b.owner) && b.tasks[t].next == Bump
    ensures OwnStep(b, DoBump(b, t), t) && TaskOk(DoBump(b, t), t)
  {
  }

  lemma PollLocks(b: Broker, t: nat, id: nat, expired: bool)
    requires t in b.tasks && TaskOk(b, t) && Granted(b.views, b.owner) && b.tasks[t].next == Poll(id)
    ensures OwnStep(b, DoPoll(b, t, id, expired), t) && TaskOk(DoPoll(b, t, id, expired), t)
  {
  }

  lemma StoreFlagLocks(b: Broker, t: nat)
    requires t in b.tasks && TaskOk(b, t) && Granted(b.views, b.owner) && b.tasks[t].next == StoreFlag
    ensures OwnStep(b, DoStoreFlag(b, t), t) && TaskOk(DoStoreFlag(b, t), t)
  {
  }

  lemma SwapLocks(b: Broker, t: nat, id: nat)
    requires t in b.tasks && TaskOk(b, t) && Granted(b.views, b.owner) && b.tasks[t].next == Swap(id)
    ensures OwnStep(b, DoSwap(b, t, id), t) && TaskOk(DoSwap(b, t, id), t)
  {
  }

  lemma SubscribeLocks(b: Broker, t: nat, id: nat)
    requires t in b.tasks && TaskOk(b, t) && Granted(b.views, b.owner) && b.tasks[t].next == Subscribe(id)
    ensures OwnStep(b, DoSubscribe(b, t, id), t) && TaskOk(DoSubscribe(b, t, id), t)
  {
  }

  lemma QueueLocks(b: Broker, t: nat, request: Request, sub: nat)
    requires t in b.tasks && TaskOk(b, t) && Granted(b.views, b.owner) && b.tasks[t].next == Queue(request, sub)
    ensures OwnStep(b, DoQueue(b, t, request, sub), t) && TaskOk(DoQueue(b, t, request, sub), t)
  {
  }

  lemma WriteLocks(b: Broker, t: nat, request: Request, sub: nat)
    requires t in b.tasks && TaskOk(b, t) && Granted(b.views, b.owner) && b.tasks[t].next == Write(request, sub)
    ensures OwnStep(b, DoWrite(b, t, request, sub), t) && TaskOk(DoWrite(b, t, request, sub), t)
  {
  }

  lemma StopAnsweredLocks(b: Broker, t: nat, sub: nat)
    requires t in b.tasks && TaskOk(b, t) && Granted(b.views, b.owner) && b.tasks[t].next == Await(StopStream, sub)
    requires b.responses != []
    ensures OwnStep(b, DoStopAnswered(b, t), t) && TaskOk(DoStopAnswered(b, t), t)
  {
  }

  lemma StartAnsweredLocks(b: Broker, t: nat, id: nat, sub: nat)
    requires t in b.tasks && TaskOk(b, t) && Granted(b.views, b.owner) && b.tasks[t].next == Await(StartStream(id), sub)
    requires b.responses != []
    ensures OwnStep(b, DoStartAnswered(b, t, id, sub), t) && TaskOk(DoStartAnswered(b, t, id, sub), t)
  {
  }

  lemma AwaitLocks(b: Broker, t: nat, request: Request, sub: nat)
    requires t in b.tasks && TaskOk(b, t) && Granted(b.views, b.owner) && b.tasks[t].next == Await(request, sub)
    ensures OwnStep(b, DoAwait(b, t, request, sub), t) && TaskOk(DoAwait(b, t, request, sub), t)
  {
    if b.responses != [] {
      match request
      case OtherRequest =>
      case StopStream => StopAnsweredLocks(b, t, sub);
      case StartStream(id) => StartAnsweredLocks(b, t, id, sub);
    }
  }

  lemma StepLocks(b: Broker, t: nat, expired: bool)
    requires Locks(b) && t in b.tasks
    ensures Locks(DoStep(b, t, expired))
  {
    StepIsOwn(b, t, expired);
    OwnStepLocks(b, DoStep(b, t, expired), t);
  }

  lemma StepIsOwn(b: Broker, t: nat, expired: bool)
    requires t in b.tasks && TaskOk(b, t) && Granted(b.views, b.owner)
    ensures OwnStep(b, DoStep(b, t, expired), t) && TaskOk(DoStep(b, t, expired), t)
  {
    match b.tasks[t].next
    case Enter => EnterLocks(b, t);
    case Check => CheckLocks(b, t);
    case Bump => BumpLocks(b, t);
    case Poll(id) => PollLocks(b, t, id, expired);
    case StoreFlag => StoreFlagLocks(b, t);
    case Swap(id) => SwapLocks(b, t, id);
    case Subscribe(id) => SubscribeLocks(b, t, id);
    case Queue(request, sub) => QueueLocks(b, t, request, sub);
    case Write(request, sub) => WriteLocks(b, t, request, sub);
    case Await(request, sub) => AwaitLocks(b, t, request, sub);
    case Over(ok) =>
  }

  // ---- the line at the request lock ----

  /** Calls wait in line once each, and do nothing else meanwhile. */
  predicate Line(b: Broker) {
    && (forall i | 0 <= i < |b.waiters| :: b.waiters[i] in b.tasks && b.tasks[b.waiters[i]].next.Queue?)
    && (forall i, j | 0 <= i < j < |b.waiters| :: b.waiters[i] != b.waiters[j])
  }

  /** Only a call that waits for the request lock moves the line. */
  lemma StepMovesLine(b: Broker, t: nat, expired: bool)
    requires t in b.tasks && !b.tasks[t].next.Queue?
    ensures DoStep(b, t, expired).waiters == b.waiters
  {
  }

  lemma QueueLine(b: Broker, t: nat, request: Request, sub: nat)
    requires Line(b) && t in b.tasks && b.tasks[t].next == Queue(request, sub)
    ensures Line(DoQueue(b, t, request, sub))
  {
    var b' := DoQueue(b, t, request, sub);
    if b.waiters != [] && b'.waiters == b.waiters[1..] {
      assert forall i | 0 <= i < |b'.waiters| :: b'.waiters[i] == b.waiters[i + 1];
    }
  }

  lemma StepLine(b: Broker, t: nat, expired: bool)
    requires Line(b) && t in b.tasks && TaskOk(b, t) && Granted(b.views, b.owner)
    ensures Line(DoStep(b, t, expired))
  {
    if b.tasks[t].next.Queue? {
      QueueLine(b, t, b.tasks[t].next.request, b.tasks[t].next.sub);
    } else {
      StepMovesLine(b, t, expired);
      StepIsOwn(b, t, expired);
    }
  }

  // ---- the stream flag ----

  /** Between its check and its start, a call under the claim lock sees no active stream. */
  predicate FlagOk(b: Broker, x: Task) {
    b.active ==> !(x.call == Claim(false) && x.next.Bump?) && !x.next.Swap? && !(x.call.Switch? && Stopping(x.next))
  }

  predicate Stopping(next: Next) {
    (next.Queue? || next.Write? || next.Await?) && next.request.StopStream?
  }

  predicate Flags(b: Broker) {
    forall t | t in b.tasks :: FlagOk(b, b.tasks[t])
  }

  /** Only a start under the claim lock raises the flag. */
  lemma FlagRises(b: Broker, t: nat, expired: bool)
    requires t in b.tasks && !b.active && DoStep(b, t, expired).active
    ensures b.tasks[t].next.Swap?
  {
  }

  predicate OwnFlagOk(b: Broker, t: nat) {
    t in b.tasks && FlagOk(b, b.tasks[t])
  }

  lemma ClaimFlag(b: Broker, t: nat, expired: bool)
    requires t in b.tasks && FlagOk(b, b.tasks[t]) && (b.tasks[t].next.Enter? || b.tasks[t].next.Check? || b.tasks[t].next.Bump? || b.tasks[t].next.Poll?)
    ensures OwnFlagOk(DoStep(b, t, expired), t)
  {
  }

  lemma StreamFlag(b: Broker, t: nat, expired: bool)
    requires t in b.tasks && FlagOk(b, b.tasks[t]) && (b.tasks[t].next.StoreFlag? || b.tasks[t].next.Swap? || b.tasks[t].next.Subscribe?)
    ensures OwnFlagOk(DoStep(b, t, expired), t)
  {
  }

  lemma RequestFlag(b: Broker, t: nat, expired: bool)
    requires t in b.tasks && FlagOk(b, b.tasks[t]) && (b.tasks[t].next.Queue? || HoldsRequest(b.tasks[t]))
    ensures OwnFlagOk(DoStep(b, t, expired), t)
  {
  }

  lemma OwnFlag(b: Broker, t: nat, expired: bool)
    requires t in b.tasks && FlagOk(b, b.tasks[t])
    ensures OwnFlagOk(DoStep(b, t, expired), t)
  {
    var next := b.tasks[t].next;
    if next.Queue? || HoldsRequest(b.tasks[t]) {
      RequestFlag(b, t, expired);
    } else if next.StoreFlag? || next.Swap? || next.Subscribe? {
      StreamFlag(b, t, expired);
    } else if !next.Over? {
      ClaimFlag(b, t, expired);
    }
  }

  lemma StepFlags(b: Broker, t: nat, expired: bool)
    requires Locks(b) && Flags(b) && t in b.tasks
    ensures Flags(DoStep(b, t, expired))
  {
    var b' := DoStep(b, t, expired);
    StepIsOwn(b, t, expired);
    OwnFlag(b, t, expired);
    if !b.active && b'.active {
      FlagRises(b, t, expired);
    }
    forall u | u in b'.tasks
      ensures FlagOk(b', b'.tasks[u])
    {
      if u != t {
        assert TaskOk(b, u) && TaskOk(b, t) && FlagOk(b, b.tasks[u]);
      }
    }
  }

  lemma ReadKeepsBroker(b: Broker, m: Message)
    requires Locks(b) && Flags(b)
    ensures Locks(DoRead(b, m)) && Flags(DoRead(b, m))
  {
    forall t | t in b.tasks
      ensures TaskOk(DoRead(b, m), t) && FlagOk(DoRead(b, m), b.tasks[t])
    {
      assert TaskOk(b, t) && FlagOk(b, b.tasks[t]);
    }
  }

  lemma BeginFlags(b: Broker, t: nat, call: Call)
    requires Flags(b)
    ensures Flags(DoBegin(b, t, call))
  {
  }

  // ---- streams ----

  /** At most one stream task runs: the last one started, with the worker's flag up, and either
      held or being joined. */
  predicate StreamOk(w: Worker, g: nat) {
    && g < |w.starts|
    && (Runs(w, g) ==> g + 1 == |w.starts| && w.active && ((w.loop.Idle? && w.handle == Some(g)) || w.loop == Joining(g)))
  }

  predicate Streams(w: Worker) {
    forall g | g in w.forwarders :: StreamOk(w, g)
  }

  predicate NoneRuns(w: Worker) {
    forall g | g in w.forwarders :: !Runs(w, g)
  }

  predicate Older(m: seq<Message>, g: nat) {
    forall k | 0 <= k < |m| && m[k].Frame? :: m[k].g < g
  }

  /** No frame of a stream before `g`. */
  predicate Newer(m: seq<Message>, g: nat) {
    forall k | 0 <= k < |m| && m[k].Frame? :: m[k].g >= g
  }

  lemma TakeStreams(w: Worker, request: Request)
    requires Streams(w) && w.loop.Idle?
    ensures Streams(DoTake(w, request).w)
    ensures DoTake(w, request).reply.Some? && DoTake(w, request).reply.value.Stopped? ==> NoneRuns(DoTake(w, request).w) && !DoTake(w, request).w.active
    ensures request.StartStream? && !w.active ==> NoneRuns(w)
  {
    forall g | g in w.forwarders
      ensures StreamOk(w, g)
    {
    }
  }

  lemma JoinStreams(w: Worker)
    requires Streams(w) && Joins(w)
    ensures Streams(w.(loop := Idle, active := false)) && NoneRuns(w)
  {
    forall g | g in w.forwarders
      ensures StreamOk(w, g) && !Runs(w, g)
    {
      assert StreamOk(w, g);
    }
  }

  lemma CaptureEndsStreams(w: Worker, g: nat)
    requires Streams(w) && Runs(w, g)
    ensures Streams(w.(forwarders := w.forwarders[g := Ending], active := false))
    ensures NoneRuns(w.(forwarders := w.forwarders[g := Ending], active := false))
  {
    var w' := w.(forwarders := w.forwarders[g := Ending], active := false);
    forall h | h in w'.forwarders
      ensures StreamOk(w', h) && !Runs(w', h)
    {
      assert StreamOk(w, h) && StreamOk(w, g);
    }
  }

  lemma RemoveStreams(w: Worker, g: nat)
    requires Streams(w)
    ensures Streams(w.(forwarders := w.forwarders - {g})) && (NoneRuns(w) ==> NoneRuns(w.(forwarders := w.forwarders - {g})))
  {
    var w' := w.(forwarders := w.forwarders - {g});
    forall h | h in w'.forwarders
      ensures StreamOk(w', h) && (!Runs(w, h) ==> !Runs(w', h))
    {
      assert StreamOk(w, h);
    }
  }

  // ---- requests and replies ----

  predicate NoAnswer(m: seq<Message>) {
    forall i | 0 <= i < |m| :: !m[i].Answer?
  }

  predicate Fits(starts: seq<nat>, request: Request, r: Reply) {
    match request
    case OtherRequest => r.OtherReply?
    case StopStream => r.Stopped?
    case StartStream(id) => r.Refused? || (r.Started? && r.g + 1 == |starts| && starts[r.g] == id)
  }

  predicate AnswerAt(m: seq<Message>, i: nat) {
    i < |m| && m[i].Answer? && forall j | 0 <= j < |m| && j != i :: !m[j].Answer?
  }

  /** Where the one outstanding request is: on its way, being served, or answered. */
  datatype Flight = Sent | Served | Replied(i: nat) | Arrived

  predicate FlightOk(s: State, request: Request, f: Flight) {
    && s.toWorker == (if f.Sent? then [request] else [])
    && (s.w.loop.Joining? <==> f.Served?) && (f.Served? ==> request.StopStream?)
    && (if f.Replied? then AnswerAt(s.toBroker, f.i) && Fits(s.w.starts, request, s.toBroker[f.i].r) else NoAnswer(s.toBroker))
    && (if f.Arrived? then |s.b.responses| == 1 && Fits(s.w.starts, request, s.b.responses[0]) else s.b.responses == [])
  }

  predicate NoFrameFrom(m: seq<Message>, i: nat) {
    forall k | i <= k < |m| :: !m[k].Frame?
  }

  /** Every frame of a stopped stream is on the wire before the stop's answer. */
  predicate StopOk(s: State, request: Request, f: Flight) {
    request.StopStream? && (f.Replied? || f.Arrived?) ==>
      NoneRuns(s.w) && !s.w.active && NoFrameFrom(s.toBroker, if f.Replied? then f.i else 0)
  }

  predicate Silent(s: State) {
    s.toWorker == [] && s.w.loop.Idle? && NoAnswer(s.toBroker) && s.b.responses == []
  }

  predicate Awaited(b: Broker) {
    b.requestLock.Some? && b.requestLock.value in b.tasks && b.tasks[b.requestLock.value].next.Await?
  }

  function Outstanding(b: Broker): Request
    requires Awaited(b)
  {
    b.tasks[b.requestLock.value].next.request
  }

  predicate PairedAt(s: State, f: Flight) {
    if Awaited(s.b) then FlightOk(s, Outstanding(s.b), f) && StopOk(s, Outstanding(s.b), f) else Silent(s)
  }

  // Each event moves the request one place on.

  function FlightAfterTake(s: State): Flight
    requires s.toWorker != []
  {
    if DoTake(s.w, s.toWorker[0]).reply.Some? then Replied(|s.toBroker|) else Served
  }

  lemma TakePaired(s: State, f: Flight)
    requires PairedAt(s, f) && Streams(s.w) && s.w.loop.Idle? && s.toWorker != []
    ensures PairedAt(Apply(s, Take), FlightAfterTake(s))
  {
    TakeStreams(s.w, s.toWorker[0]);
  }

  lemma JoinPaired(s: State, f: Flight)
    requires PairedAt(s, f) && Streams(s.w) && Joins(s.w)
    ensures PairedAt(Apply(s, Join), Replied(|s.toBroker|))
  {
    JoinStreams(s.w);
  }

  lemma EmitPaired(s: State, f: Flight, g: nat)
    requires PairedAt(s, f) && Runs(s.w, g)
    ensures PairedAt(Apply(s, Emit(g)), f)
  {
  }

  lemma ExitPaired(s: State, f: Flight, g: nat)
    requires PairedAt(s, f) && Streams(s.w)
    ensures PairedAt(Apply(s, Exit(g)), f)
  {
    RemoveStreams(s.w, g);
  }

  lemma CaptureEndsPaired(s: State, f: Flight, g: nat)
    requires PairedAt(s, f) && Streams(s.w)
    ensures PairedAt(Apply(s, CaptureEnds(g)), f)
  {
    if Runs(s.w, g) {
      CaptureEndsStreams(s.w, g);
    }
  }

  lemma ReportPaired(s: State, f: Flight, g: nat)
    requires PairedAt(s, f) && Streams(s.w)
    ensures PairedAt(Apply(s, Report(g)), f)
  {
    RemoveStreams(s.w, g);
  }

  function FlightAfterRead(s: State, f: Flight): Flight {
    if !f.Replied? || s.toBroker == [] then f else if f.i == 0 then Arrived else Replied(f.i - 1)
  }

  lemma ReadPaired(s: State, f: Flight)
    requires PairedAt(s, f)
    ensures PairedAt(Apply(s, Read), FlightAfterRead(s, f))
  {
    if s.toBroker != [] {
      var m := s.toBroker[1..];
      assert forall k | 0 <= k < |m| :: m[k] == s.toBroker[k + 1];
    }
  }

  lemma BeginPaired(s: State, f: Flight, t: nat, call: Call)
    requires PairedAt(s, f) && Locks(s.b)
    ensures PairedAt(Apply(s, Begin(t, call)), f)
  {
  }

  function FlightAfterStep(s: State, f: Flight, t: nat): Flight
    requires t in s.b.tasks
  {
    if s.b.tasks[t].next.Write? then Sent else f
  }

  lemma WritePaired(s: State, f: Flight, t: nat)
    requires PairedAt(s, f) && t in s.b.tasks && TaskOk(s.b, t) && s.b.tasks[t].next.Write?
    ensures PairedAt(DoCall(s, t, false), Sent)
  {
  }

  lemma AwaitPaired(s: State, f: Flight, t: nat)
    requires PairedAt(s, f) && t in s.b.tasks && TaskOk(s.b, t) && s.b.tasks[t].next.Await? && s.b.responses != []
    ensures PairedAt(DoCall(s, t, false), f)
  {
    var next := s.b.tasks[t].next;
    assert Awaited(s.b) && f.Arrived?;
    assert DoStep(s.b, t, false).requestLock.None? && DoStep(s.b, t, false).responses == s.b.responses[1..];
  }

  lemma ClaimRequestSame(b: Broker, t: nat, expired: bool)
    requires t in b.tasks && (b.tasks[t].next.Enter? || b.tasks[t].next.Check? || b.tasks[t].next.Bump? || b.tasks[t].next.Poll?)
    ensures DoStep(b, t, expired).requestLock == b.requestLock && DoStep(b, t, expired).responses == b.responses
  {
  }

  lemma StreamRequestSame(b: Broker, t: nat, expired: bool)
    requires t in b.tasks && (b.tasks[t].next.StoreFlag? || b.tasks[t].next.Swap? || b.tasks[t].next.Subscribe? || b.tasks[t].next.Over?)
    ensures DoStep(b, t, expired).requestLock == b.requestLock && DoStep(b, t, expired).responses == b.responses
  {
  }

  /** Any other step leaves the outstanding request and its place alone. */
  lemma OtherStepEffect(b: Broker, t: nat, expired: bool)
    requires t in b.tasks && TaskOk(b, t) && Granted(b.views, b.owner) && !b.tasks[t].next.Write? && (b.tasks[t].next.Await? ==> b.responses == [])
    ensures var b' := DoStep(b, t, expired);
            && b'.responses == b.responses && (Awaited(b) <==> Awaited(b')) && (Awaited(b) ==> Outstanding(b') == Outstanding(b))
  {
    var next := b.tasks[t].next;
    StepIsOwn(b, t, expired);
    if next.Enter? || next.Check? || next.Bump? || next.Poll? {
      ClaimRequestSame(b, t, expired);
    } else if next.StoreFlag? || next.Swap? || next.Subscribe? || next.Over? {
      StreamRequestSame(b, t, expired);
    }
  }

  lemma StepPaired(s: State, f: Flight, t: nat, expired: bool)
    requires PairedAt(s, f) && Locks(s.b) && t in s.b.tasks
    ensures PairedAt(DoCall(s, t, expired), FlightAfterStep(s, f, t))
  {
    assert TaskOk(s.b, t);
    var next := s.b.tasks[t].next;
    if next.Write? {
      WritePaired(s, f, t);
      assert DoStep(s.b, t, expired) == DoStep(s.b, t, false);
    } else if next.Await? && s.b.responses != [] {
      AwaitPaired(s, f, t);
      assert DoStep(s.b, t, expired) == DoStep(s.b, t, false);
    } else {
      OtherStepEffect(s.b, t, expired);
    }
  }

  // ---- what a new subscription sees ----

  predicate From(s: State, sub: nat, g: nat) {
    sub <= |s.b.log| && Newer(s.b.log[sub..], g) && Newer(s.toBroker, g)
  }

  predicate Bounded(s: State) {
    Older(s.b.log, |s.w.starts|) && Older(s.toBroker, |s.w.starts|)
  }

  /** Nothing is left of any stream: no frame in transit and none to come. */
  predicate Clear(s: State, sub: nat) {
    From(s, sub, |s.w.starts|) && NoneRuns(s.w) && !s.w.active
  }

  /** The new stream was started and will be answered so. */
  predicate Begun(s: State, sub: nat) {
    && |s.w.starts| > 0 && From(s, sub, |s.w.starts| - 1)
    && (forall i | 0 <= i < |s.toBroker| && s.toBroker[i].Answer? :: s.toBroker[i].r.Started?)
    && (s.b.responses != [] ==> s.b.responses[0].Started?)
  }

  /** A switch, from its stop's answer to its start's. */
  predicate Window(s: State, x: Task) {
    x.call.Switch? ==>
      match x.next
      case Swap(_) => Clear(s, |s.b.log|)
      case Subscribe(_) => Clear(s, |s.b.log|)
      case Queue(StartStream(_), sub) => Clear(s, sub)
      case Write(StartStream(_), sub) => Clear(s, sub)
      case Await(StartStream(_), sub) => if s.toWorker != [] then Clear(s, sub) else Begun(s, sub)
      case _ => true
  }

  predicate Windows(s: State) {
    forall t | t in s.b.tasks :: Window(s, s.b.tasks[t])
  }

  /** Views of claims, and which streams started since a view's own. */
  predicate Restarted(s: State, id: nat) {
    && s.b.claimLock.Some? && s.b.claimLock.value in s.b.tasks
    && s.b.tasks[s.b.claimLock.value].call == Switch(id)
    && s.b.tasks[s.b.claimLock.value].next.Await? && s.b.tasks[s.b.claimLock.value].next.request.StartStream?
    && s.toWorker == []
  }

  predicate ViewOk(s: State, id: nat, v: View) {
    && v.g < |s.w.starts| && s.w.starts[v.g] == id
    && (v.switched ==> From(s, v.sub, v.g))
    && (forall h | v.g < h < |s.w.starts| :: s.w.starts[h] > id || (h + 1 == |s.w.starts| && Restarted(s, id)))
  }

  predicate Views(s: State) {
    forall id | id in s.b.views :: ViewOk(s, id, s.b.views[id])
  }

  ghost predicate Inv(s: State) {
    && Locks(s.b) && Line(s.b) && Flags(s.b) && Streams(s.w) && Bounded(s) && Windows(s) && Views(s)
    && exists f :: PairedAt(s, f)
  }

  lemma FromRead(s: State, sub: nat, g: nat)
    requires From(s, sub, g) && s.toBroker != []
    ensures From(Apply(s, Read), sub, g)
  {
    var m, log := s.toBroker[1..], Apply(s, Read).b.log;
    assert forall k | 0 <= k < |m| :: m[k] == s.toBroker[k + 1];
    forall k | 0 <= k < |log[sub..]| && log[sub..][k].Frame?
      ensures log[sub..][k].g >= g
    {
      assert log[sub..][k] == if sub + k < |s.b.log| then s.b.log[sub..][k] else s.toBroker[0];
    }
  }

  lemma EmitKeeps(s: State, g: nat)
    requires Inv(s)
    ensures Inv(Apply(s, Emit(g)))
  {
    if Runs(s.w, g) {
      var s' := Apply(s, Emit(g));
      assert StreamOk(s.w, g);
      var f :| PairedAt(s, f);
      EmitPaired(s, f, g);
      forall t | t in s'.b.tasks
        ensures Window(s', s'.b.tasks[t])
      {
        assert Window(s, s.b.tasks[t]);
        EmitWindow(s, g, s.b.tasks[t]);
      }
      forall id | id in s'.b.views
        ensures ViewOk(s', id, s'.b.views[id])
      {
        assert ViewOk(s, id, s.b.views[id]);
      }
    }
  }

  lemma EmitWindow(s: State, g: nat, x: Task)
    requires Window(s, x) && Runs(s.w, g) && StreamOk(s.w, g)
    ensures Window(Apply(s, Emit(g)), x)
  {
  }

  /** Stream tasks that end, and notices that are no frames, disturb no one. */
  predicate Quieter(w: Worker, w': Worker) {
    w'.starts == w.starts && (NoneRuns(w) ==> NoneRuns(w')) && (w'.active ==> w.active)
  }

  lemma QuieterWindow(s: State, w': Worker, extra: seq<Message>, x: Task)
    requires Window(s, x) && Quieter(s.w, w') && NoFrameFrom(extra, 0)
    requires NoAnswer(extra) || !(x.call.Switch? && x.next.Await? && x.next.request.StartStream?)
    ensures Window(s.(w := w', toBroker := s.toBroker + extra), x)
  {
  }

  lemma QuieterView(s: State, w': Worker, extra: seq<Message>, id: nat, v: View)
    requires ViewOk(s, id, v) && w'.starts == s.w.starts && NoFrameFrom(extra, 0)
    ensures ViewOk(s.(w := w', toBroker := s.toBroker + extra), id, v)
  {
  }

  lemma QuieterKeeps(s: State, w': Worker, extra: seq<Message>)
    requires Windows(s) && Views(s) && Bounded(s) && Quieter(s.w, w') && NoFrameFrom(extra, 0)
    requires NoAnswer(extra) || forall t | t in s.b.tasks :: !(s.b.tasks[t].next.Await? && s.b.tasks[t].next.request.StartStream?)
    ensures var s' := s.(w := w', toBroker := s.toBroker + extra);
            Windows(s') && Views(s') && Bounded(s')
  {
    var s' := s.(w := w', toBroker := s.toBroker + extra);
    forall t | t in s'.b.tasks
      ensures Window(s', s'.b.tasks[t])
    {
      assert Window(s, s.b.tasks[t]);
      QuieterWindow(s, w', extra, s.b.tasks[t]);
    }
    forall id | id in s'.b.views
      ensures ViewOk(s', id, s'.b.views[id])
    {
      assert ViewOk(s, id, s.b.views[id]);
      QuieterView(s, w', extra, id, s.b.views[id]);
    }
  }

  lemma ExitKeeps(s: State, g: nat)
    requires Inv(s)
    ensures Inv(Apply(s, Exit(g)))
  {
    var f :| PairedAt(s, f);
    ExitPaired(s, f, g);
    RemoveStreams(s.w, g);
    QuieterKeeps(s, s.w.(forwarders := s.w.forwarders - {g}), []);
    assert s.toBroker + [] == s.toBroker;
  }

  lemma CaptureEndsKeeps(s: State, g: nat)
    requires Inv(s)
    ensures Inv(Apply(s, CaptureEnds(g)))
  {
    var f :| PairedAt(s, f);
    CaptureEndsPaired(s, f, g);
    if Runs(s.w, g) {
      CaptureEndsStreams(s.w, g);
      QuieterKeeps(s, s.w.(forwarders := s.w.forwarders[g := Ending], active := false), []);
      assert s.toBroker + [] == s.toBroker;
    }
  }

  lemma ReportKeeps(s: State, g: nat)
    requires Inv(s)
    ensures Inv(Apply(s, Report(g)))
  {
    var f :| PairedAt(s, f);
    ReportPaired(s, f, g);
    RemoveStreams(s.w, g);
    QuieterKeeps(s, s.w.(forwarders := s.w.forwarders - {g}), [Ended(g)]);
  }

  /** The outstanding request is the one its caller waits for. */
  lemma OnlyAwait(s: State, f: Flight, t: nat)
    requires Locks(s.b) && PairedAt(s, f) && t in s.b.tasks && s.b.tasks[t].next.Await?
    ensures Awaited(s.b) && Outstanding(s.b) == s.b.tasks[t].next.request && FlightOk(s, s.b.tasks[t].next.request, f)
  {
    assert TaskOk(s.b, t);
  }

  lemma JoinKeeps(s: State)
    requires Inv(s)
    ensures Inv(Apply(s, Join))
  {
    if Joins(s.w) {
      var f :| PairedAt(s, f);
      JoinPaired(s, f);
      JoinStreams(s.w);
      forall t | t in s.b.tasks
        ensures !(s.b.tasks[t].next.Await? && s.b.tasks[t].next.request.StartStream?)
      {
        if s.b.tasks[t].next.Await? {
          OnlyAwait(s, f, t);
        }
      }
      QuieterKeeps(s, s.w.(loop := Idle, active := false), [Answer(Stopped)]);
    }
  }

  lemma TakeQuietKeeps(s: State)
    requires Inv(s) && s.w.loop.Idle? && s.toWorker != [] && !s.toWorker[0].StartStream?
    ensures Inv(Apply(s, Take))
  {
    var f :| PairedAt(s, f);
    TakePaired(s, f);
    TakeStreams(s.w, s.toWorker[0]);
    forall t | t in s.b.tasks
      ensures !(s.b.tasks[t].next.Await? && s.b.tasks[t].next.request.StartStream?)
    {
      if s.b.tasks[t].next.Await? {
        OnlyAwait(s, f, t);
      }
    }
    var taken := DoTake(s.w, s.toWorker[0]);
    var extra := if taken.reply.Some? then [Answer(taken.reply.value)] else [];
    var q := s.(toWorker := []);
    assert forall x: Task | !(x.next.Await? && x.next.request.StartStream?) && Window(s, x) :: Window(q, x);
    assert forall id, v | ViewOk(s, id, v) :: ViewOk(q, id, v);
    QuieterKeeps(q, taken.w, extra);
    assert Apply(s, Take) == q.(w := taken.w, toBroker := s.toBroker + extra);
  }

  /** Only the holder of the claim lock can be in a switch's window. */
  lemma OutsideWindow(s: State, x: Task)
    requires Shape(x) && !HoldsClaim(x)
    ensures Window(s, x)
  {
  }

  lemma TakeStartWindow(s: State, f: Flight, t: nat)
    requires Locks(s.b) && Windows(s) && PairedAt(s, f) && s.w.loop.Idle? && s.toWorker != [] && s.toWorker[0].StartStream?
    requires t in s.b.tasks
    ensures Window(Apply(s, Take), s.b.tasks[t])
  {
    var x := s.b.tasks[t];
    assert TaskOk(s.b, t) && TaskOk(s.b, s.b.requestLock.value) && Window(s, x);
    if t != s.b.requestLock.value {
      OutsideWindow(Apply(s, Take), x);
    }
  }

  lemma TakeStartView(s: State, f: Flight, id: nat)
    requires Locks(s.b) && PairedAt(s, f) && s.w.loop.Idle? && s.toWorker != [] && s.toWorker[0].StartStream?
    requires id in s.b.views && ViewOk(s, id, s.b.views[id])
    ensures ViewOk(Apply(s, Take), id, s.b.views[id])
  {
    var t := s.b.requestLock.value;
    assert TaskOk(s.b, t) && id <= s.b.owner;
  }

  lemma TakeStartKeeps(s: State)
    requires Inv(s) && s.w.loop.Idle? && s.toWorker != [] && s.toWorker[0].StartStream?
    ensures Inv(Apply(s, Take))
  {
    var f :| PairedAt(s, f);
    TakePaired(s, f);
    TakeStreams(s.w, s.toWorker[0]);
    var s' := Apply(s, Take);
    forall t | t in s'.b.tasks
      ensures Window(s', s'.b.tasks[t])
    {
      TakeStartWindow(s, f, t);
    }
    forall id | id in s'.b.views
      ensures ViewOk(s', id, s'.b.views[id])
    {
      assert ViewOk(s, id, s.b.views[id]);
      TakeStartView(s, f, id);
    }
  }

  lemma ReadWindow(s: State, x: Task)
    requires Window(s, x) && s.toBroker != []
    ensures Window(Apply(s, Read), x)
  {
    forall sub, g | From(s, sub, g)
      ensures From(Apply(s, Read), sub, g) && From(Apply(s, Read), |Apply(s, Read).b.log|, g)
    {
      FromRead(s, sub, g);
    }
    var m := s.toBroker[1..];
    assert forall k | 0 <= k < |m| :: m[k] == s.toBroker[k + 1];
  }

  lemma ReadView(s: State, id: nat, v: View)
    requires ViewOk(s, id, v) && s.toBroker != []
    ensures ViewOk(Apply(s, Read), id, v)
  {
    if v.switched {
      FromRead(s, v.sub, v.g);
    }
  }

  lemma ReadBounded(s: State)
    requires Bounded(s) && s.toBroker != []
    ensures Bounded(Apply(s, Read))
  {
    var s' := Apply(s, Read);
    assert forall k | 0 <= k < |s'.toBroker| :: s'.toBroker[k] == s.toBroker[k + 1];
  }

  lemma ReadWindows(s: State)
    requires Windows(s) && Views(s) && s.toBroker != []
    ensures Windows(Apply(s, Read)) && Views(Apply(s, Read))
  {
    var s' := Apply(s, Read);
    forall t | t in s'.b.tasks
      ensures Window(s', s'.b.tasks[t])
    {
      assert Window(s, s.b.tasks[t]);
      ReadWindow(s, s.b.tasks[t]);
    }
    forall id | id in s'.b.views
      ensures ViewOk(s', id, s'.b.views[id])
    {
      assert ViewOk(s, id, s.b.views[id]);
      ReadView(s, id, s.b.views[id]);
    }
  }

  lemma ReadKeeps(s: State)
    requires Inv(s)
    ensures Inv(Apply(s, Read))
  {
    if s.toBroker != [] {
      var f :| PairedAt(s, f);
      ReadPaired(s, f);
      ReadKeepsBroker(s.b, s.toBroker[0]);
      ReadBounded(s);
      ReadWindows(s);
    }
  }

  // ---- steps of a call ----

  predicate SameStreams(s: State, s': State) {
    s'.w == s.w && s'.toBroker == s.toBroker && s'.b.log == s.b.log
  }

  lemma StepSameStreams(s: State, t: nat, expired: bool)
    requires t in s.b.tasks
    ensures SameStreams(s, DoCall(s, t, expired))
  {
  }

  /** The stop of a switch was answered: nothing of the old stream is left. */
  lemma StopAnsweredWindow(s: State, f: Flight, t: nat, sub: nat)
    requires Locks(s.b) && PairedAt(s, f) && t in s.b.tasks && s.b.tasks[t].next == Await(StopStream, sub) && s.b.responses != []
    ensures Clear(s, |s.b.log|)
  {
    OnlyAwait(s, f, t);
  }

  predicate WindowOf(s: State, t: nat) {
    t in s.b.tasks && Window(s, s.b.tasks[t])
  }

  lemma AnsweredOwnWindow(s: State, f: Flight, t: nat, expired: bool)
    requires Locks(s.b) && PairedAt(s, f) && WindowOf(s, t) && s.b.tasks[t].next.Await?
    ensures WindowOf(DoCall(s, t, expired), t)
  {
    var next := s.b.tasks[t].next;
    StepSameStreams(s, t, expired);
    if next.request.StopStream? && s.b.responses != [] {
      StopAnsweredWindow(s, f, t, next.sub);
    }
  }

  lemma OtherOwnWindow(s: State, t: nat, expired: bool)
    requires WindowOf(s, t) && Shape(s.b.tasks[t]) && !s.b.tasks[t].next.Await?
    ensures WindowOf(DoCall(s, t, expired), t)
  {
    StepSameStreams(s, t, expired);
  }

  lemma OwnWindow(s: State, f: Flight, t: nat, expired: bool)
    requires Locks(s.b) && PairedAt(s, f) && WindowOf(s, t)
    ensures WindowOf(DoCall(s, t, expired), t)
  {
    assert TaskOk(s.b, t);
    if s.b.tasks[t].next.Await? {
      AnsweredOwnWindow(s, f, t, expired);
    } else {
      OtherOwnWindow(s, t, expired);
    }
  }

  lemma OtherWindow(s: State, f: Flight, t: nat, u: nat, expired: bool)
    requires Locks(s.b) && PairedAt(s, f) && t in s.b.tasks && u in s.b.tasks && u != t && Window(s, s.b.tasks[u])
    ensures Window(DoCall(s, t, expired), s.b.tasks[u])
  {
    assert TaskOk(s.b, t) && TaskOk(s.b, u);
    StepSameStreams(s, t, expired);
  }

  /** `t` is about to get its new stream. */
  predicate Receives(b: Broker, t: nat)
    requires t in b.tasks
  {
    b.tasks[t].next.Await? && b.tasks[t].next.request.StartStream? && b.responses != [] && b.responses[0].Started?
  }

  lemma NewView(s: State, f: Flight, t: nat, expired: bool)
    requires Locks(s.b) && PairedAt(s, f) && t in s.b.tasks && Window(s, s.b.tasks[t]) && Receives(s.b, t)
    ensures var s' := DoCall(s, t, expired);
            var id := s.b.tasks[t].next.request.id;
            s'.b.views == s.b.views[id := s'.b.views[id]] && ViewOk(s', id, s'.b.views[id])
  {
    OnlyAwait(s, f, t);
    StepSameStreams(s, t, expired);
  }

  lemma SameViews(b: Broker, t: nat, expired: bool)
    requires t in b.tasks && !Receives(b, t)
    ensures DoStep(b, t, expired).views == b.views
  {
  }

  lemma NotRestarted(s: State, f: Flight, t: nat, expired: bool, id: nat)
    requires Locks(s.b) && PairedAt(s, f) && t in s.b.tasks && Window(s, s.b.tasks[t])
    requires Restarted(s, id) && !Restarted(DoCall(s, t, expired), id)
    ensures Receives(s.b, t) && s.b.tasks[t].next.request.id == id
  {
    var u := s.b.claimLock.value;
    assert TaskOk(s.b, t) && TaskOk(s.b, u);
    OnlyAwait(s, f, u);
  }

  lemma OldView(s: State, f: Flight, t: nat, expired: bool, id: nat, v: View)
    requires Locks(s.b) && PairedAt(s, f) && t in s.b.tasks && Window(s, s.b.tasks[t]) && ViewOk(s, id, v)
    requires Receives(s.b, t) ==> s.b.tasks[t].next.request.id != id
    ensures ViewOk(DoCall(s, t, expired), id, v)
  {
    StepSameStreams(s, t, expired);
    if Restarted(s, id) && !Restarted(DoCall(s, t, expired), id) {
      NotRestarted(s, f, t, expired, id);
    }
  }

  lemma StepViews(s: State, f: Flight, t: nat, expired: bool)
    requires Locks(s.b) && PairedAt(s, f) && t in s.b.tasks && Windows(s) && Views(s)
    ensures Views(DoCall(s, t, expired))
  {
    var s' := DoCall(s, t, expired);
    assert Window(s, s.b.tasks[t]);
    if Receives(s.b, t) {
      NewView(s, f, t, expired);
    } else {
      SameViews(s.b, t, expired);
    }
    forall id | id in s'.b.views
      ensures ViewOk(s', id, s'.b.views[id])
    {
      if !(Receives(s.b, t) && s.b.tasks[t].next.request.id == id) {
        assert ViewOk(s, id, s.b.views[id]);
        OldView(s, f, t, expired, id, s.b.views[id]);
      }
    }
  }

  lemma StepWindows(s: State, f: Flight, t: nat, expired: bool)
    requires Locks(s.b) && PairedAt(s, f) && t in s.b.tasks && Windows(s)
    ensures Windows(DoCall(s, t, expired))
  {
    var s' := DoCall(s, t, expired);
    assert Window(s, s.b.tasks[t]) && TaskOk(s.b, t);
    StepIsOwn(s.b, t, expired);
    forall u | u in s'.b.tasks
      ensures Window(s', s'.b.tasks[u])
    {
      if u == t {
        OwnWindow(s, f, t, expired);
      } else {
        assert Window(s, s.b.tasks[u]);
        OtherWindow(s, f, t, u, expired);
      }
    }
  }

  lemma CallKeeps(s: State, t: nat, expired: bool)
    requires Inv(s) && t in s.b.tasks
    ensures Inv(DoCall(s, t, expired))
  {
    var f :| PairedAt(s, f);
    StepPaired(s, f, t, expired);
    StepLocks(s.b, t, expired);
    assert TaskOk(s.b, t);
    StepLine(s.b, t, expired);
    StepFlags(s.b, t, expired);
    StepSameStreams(s, t, expired);
    StepWindows(s, f, t, expired);
    StepViews(s, f, t, expired);
  }

  lemma BeginWindows(s: State, t: nat, call: Call)
    requires Windows(s)
    ensures Windows(Apply(s, Begin(t, call)))
  {
    var s' := Apply(s, Begin(t, call));
    forall u | u in s'.b.tasks
      ensures Window(s', s'.b.tasks[u])
    {
      if u in s.b.tasks {
        assert Window(s, s.b.tasks[u]);
      }
    }
  }

  lemma BeginViews(s: State, t: nat, call: Call)
    requires Views(s)
    ensures Views(Apply(s, Begin(t, call)))
  {
    var s' := Apply(s, Begin(t, call));
    forall id | id in s'.b.views
      ensures ViewOk(s', id, s'.b.views[id])
    {
      assert ViewOk(s, id, s.b.views[id]);
    }
  }

  lemma BeginKeeps(s: State, t: nat, call: Call)
    requires Inv(s)
    ensures Inv(Apply(s, Begin(t, call)))
  {
    var f :| PairedAt(s, f);
    BeginPaired(s, f, t, call);
    BeginLocks(s.b, t, call);
    BeginFlags(s.b, t, call);
    BeginWindows(s, t, call);
    BeginViews(s, t, call);
  }

  lemma StepKeeps(s: State, e: Event)
    requires Inv(s)
    ensures Inv(Apply(s, e))
  {
    match e
    case Begin(t, call) => BeginKeeps(s, t, call);
    case Step(t, expired) =>
      if t in s.b.tasks {
        CallKeeps(s, t, expired);
      }
    case Take =>
      if s.w.loop.Idle? && s.toWorker != [] {
        if s.toWorker[0].StartStream? {
          TakeStartKeeps(s);
        } else {
          TakeQuietKeeps(s);
        }
      }
    case Join => JoinKeeps(s);
    case Emit(g) => EmitKeeps(s, g);
    case Exit(g) => ExitKeeps(s, g);
    case CaptureEnds(g) => CaptureEndsKeeps(s, g);
    case Report(g) => ReportKeeps(s, g);
    case Read => ReadKeeps(s);
  }

  lemma {:induction false} RunKeeps(events: seq<Event>)
    ensures Inv(Run(Init, events))
    decreases |events|
  {
    if events == [] {
      assert PairedAt(Init, Sent);
    } else {
      RunKeeps(events[..|events| - 1]);
      StepKeeps(Run(Init, events[..|events| - 1]), Last(events));
    }
  }

  /** Streams are started for claims that were granted. */
  predicate Claimed(s: State) {
    forall h | 0 <= h < |s.w.starts| :: s.w.starts[h] <= s.b.owner
  }

  lemma OwnerGrows(s: State, e: Event)
    ensures s.b.owner <= Apply(s, e).b.owner
  {
  }

  lemma ClaimedKeeps(s: State, e: Event)
    requires Inv(s) && Claimed(s)
    ensures Claimed(Apply(s, e))
  {
    OwnerGrows(s, e);
    if e.Take? && s.w.loop.Idle? && s.toWorker != [] && s.toWorker[0].StartStream? {
      var f :| PairedAt(s, f);
      assert TaskOk(s.b, s.b.requestLock.value);
    }
  }

  lemma {:induction false} RunClaimed(events: seq<Event>)
    ensures Claimed(Run(Init, events))
    decreases |events|
  {
    if events != [] {
      RunClaimed(events[..|events| - 1]);
      RunKeeps(events[..|events| - 1]);
      ClaimedKeeps(Run(Init, events[..|events| - 1]), Last(events));
    }
  }

  // ---- the theorems ----

  predicate Switching(b: Broker, id: nat) {
    b.claimLock.Some? && b.claimLock.value in b.tasks && b.tasks[b.claimLock.value].call == Switch(id)
  }

  /** Display-switch separation. In every run, a viewer that still owns the desktop and is not
      switching again gets, after a switch, frames of the capture that switch started only. */
  lemma SwitchShowsOnlyTheNewCapture(events: seq<Event>, id: nat, k: nat)
    ensures var b := Run(Init, events).b;
            && id in b.views && b.views[id].switched && b.owner == id && !Switching(b, id)
            && b.views[id].sub <= k < |b.log| && b.log[k].Frame?
            ==> b.log[k].g == b.views[id].g
  {
    RunKeeps(events);
    RunClaimed(events);
    var s := Run(Init, events);
    if id in s.b.views && s.b.views[id].switched && s.b.owner == id && s.b.views[id].sub <= k < |s.b.log| && s.b.log[k].Frame? {
      var v := s.b.views[id];
      assert ViewOk(s, id, v);
      assert s.b.log[v.sub..][k - v.sub] == s.b.log[k];
      var h := s.b.log[k].g;
      assert v.g <= h < |s.w.starts| && s.w.starts[h] <= s.b.owner;
    }
  }

  /** In every run at most one stream task runs, the last one started, with the flag up. */
  lemma OneStreamRuns(events: seq<Event>, g: nat)
    ensures var w := Run(Init, events).w;
            Runs(w, g) ==> g + 1 == |w.starts| && w.active
  {
    RunKeeps(events);
    var w := Run(Init, events).w;
    if g in w.forwarders {
      assert StreamOk(w, g);
    }
  }

  /** In every run a call that waits is the only one to do so, and the one answer it can find is
      of the kind it asked for: a started stream is the last one, started for its claim. */
  lemma RepliesFitRequests(events: seq<Event>, t: nat, u: nat)
    ensures var s := Run(Init, events);
            t in s.b.tasks && s.b.tasks[t].next.Await?
            ==> && (u in s.b.tasks && s.b.tasks[u].next.Await? ==> u == t)
                && (s.b.responses == [] || (|s.b.responses| == 1 && Fits(s.w.starts, s.b.tasks[t].next.request, s.b.responses[0])))
  {
    RunKeeps(events);
    var s := Run(Init, events);
    if t in s.b.tasks && s.b.tasks[t].next.Await? {
      var f :| PairedAt(s, f);
      OnlyAwait(s, f, t);
      assert TaskOk(s.b, t) && (u in s.b.tasks ==> TaskOk(s.b, u));
    }
  }

  /** In every run: the worker never refuses the restart of a switch, so a switch whose stop
      was answered ends with a new stream. */
  lemma SwitchAlwaysRestarts(events: seq<Event>, t: nat)
    ensures var b := Run(Init, events).b;
            && t in b.tasks && b.tasks[t].call.Switch? && b.tasks[t].next.Await? && b.tasks[t].next.request.StartStream?
            && b.responses != []
            ==> b.responses[0].Started? && DoStep(b, t, false).owner == b.owner == b.tasks[t].call.id
  {
    RunKeeps(events);
    var s := Run(Init, events);
    if t in s.b.tasks && s.b.tasks[t].call.Switch? && s.b.tasks[t].next.Await? && s.b.tasks[t].next.request.StartStream? && s.b.responses != [] {
      var f :| PairedAt(s, f);
      OnlyAwait(s, f, t);
      assert Window(s, s.b.tasks[t]) && TaskOk(s.b, t);
    }
  }

  /** What any step can do to the owner counter and the flag. */
  predicate TakeoverStep(s: State, e: Event) {
    var s' := Apply(s, e);
    // the counter moves by one, only for a claim under the lock, and for a view-only claim
    // only while no stream is active
    && (s'.b.owner == s.b.owner
        || (&& e.Step? && s'.b.owner == s.b.owner + 1 && s.b.claimLock == Some(e.t) && s.b.tasks[e.t].call.Claim?
            && (s.b.tasks[e.t].call.takeOver || !s.b.active)))
    // the flag rises only under the lock
    && (!s.b.active && s'.b.active ==> e.Step? && s.b.claimLock == Some(e.t) && s.b.tasks[e.t].next.Swap?)
    // a switch goes on or gives up at once, even while the lock is held
    && (e.Step? && e.t in s.b.tasks && s.b.tasks[e.t] == Task(s.b.tasks[e.t].call, Enter) && s.b.tasks[e.t].call.Switch?
        ==> !s'.b.tasks[e.t].next.Enter? && s'.b.owner == s.b.owner)
    // a start never finds the stream active
    && (e.Step? && e.t in s.b.tasks && s.b.tasks[e.t].next.Swap? ==> !s.b.active)
  }

  lemma CallTakeover(s: State, t: nat, expired: bool)
    requires t in s.b.tasks && TaskOk(s.b, t) && FlagOk(s.b, s.b.tasks[t])
    ensures TakeoverStep(s, Step(t, expired))
  {
  }

  lemma TakeoverProtocol(events: seq<Event>, e: Event)
    requires e.Step? ==> e.t in Run(Init, events).b.tasks
    ensures TakeoverStep(Run(Init, events), e)
  {
    RunKeeps(events);
    var s := Run(Init, events);
    if e.Step? {
      CallTakeover(s, e.t, e.expired);
    }
  }

  lemma {:induction false} RunGrows(s: State, events: seq<Event>)
    ensures s.b.owner <= Run(s, events).b.owner
    decreases |events|
  {
    if events != [] {
      RunGrows(s, events[..|events| - 1]);
      OwnerGrows(Run(s, events[..|events| - 1]), Last(events));
    }
  }

  /** Claims get different numbers, later ones larger, and from the moment a claim is granted
      every older one is taken over for good. */
  lemma LaterClaimsTakeOver(s: State, t: nat, between: seq<Event>, u: nat, after: seq<Event>)
    requires t in s.b.tasks && s.b.tasks[t].next.Bump?
    requires u in Run(DoCall(s, t, false), between).b.tasks && Run(DoCall(s, t, false), between).b.tasks[u].next.Bump?
    ensures var granted := DoCall(s, t, false);
            var again := DoCall(Run(granted, between), u, false);
            && granted.b.tasks[t].next.Poll? && again.b.tasks[u].next.Poll?
            && granted.b.tasks[t].next.id < again.b.tasks[u].next.id <= Run(again, after).b.owner
  {
    RunGrows(DoCall(s, t, false), between);
    RunGrows(DoCall(Run(DoCall(s, t, false), between), u, false), after);
  }
}
