/**
  What exactly a viewer is given (broker.rs of rivetlink-agent), whether it keeps up with the
  broadcast or not: every video frame it has not missed, from the first keyframe on after
  each gap.
 */
module ViewerFeed {
  import opened Common
  import opened H264
  import opened VideoPipeline

  function Videos(frames: seq<StreamFrame>): seq<VideoFrame> {
    if frames == [] then [] else (if frames[0].Video? then [frames[0].frame] else []) + Videos(frames[1..])
  }

  /** The frames from the first keyframe on. */
  function FromKeyframe(frames: seq<StreamFrame>): seq<StreamFrame> {
    if frames == [] || KeyframeAt(frames, 0) then frames else FromKeyframe(frames[1..])
  }

  predicate HasKeyframe(frames: seq<StreamFrame>) {
    frames != [] && (KeyframeAt(frames, 0) || HasKeyframe(frames[1..]))
  }

  /** What a viewer must get of the frames it reads. */
  function Owed(waiting: bool, frames: seq<StreamFrame>): seq<VideoFrame> {
    Videos(if waiting then FromKeyframe(frames) else frames)
  }

  /** `v` is too slow: frames it has not read are gone from the broadcast. */
  predicate Lags(s: State, v: nat) {
    v < |s.viewers| && s.viewers[v].pos + BROADCAST_SLOTS < |s.log|
  }

  // ---- one step ----

  /** The viewer is where it was. */
  predicate Stays(x: Viewer, y: Viewer) {
    y.pos == x.pos && y.delivered == x.delivered && y.gate.awaiting == x.gate.awaiting
  }

  /** The viewer has read one frame. */
  predicate ReadsOne(x: Viewer, log: seq<StreamFrame>, y: Viewer) {
    && x.pos < |log| && y.pos == x.pos + 1
    && y.delivered == x.delivered + Owed(x.gate.awaiting, [log[x.pos]])
    && y.gate.awaiting == (x.gate.awaiting && !HasKeyframe([log[x.pos]]))
  }

  /** The viewer has learnt that it lags, and waits for a keyframe among what is retained. */
  predicate Skips(x: Viewer, log: seq<StreamFrame>, y: Viewer) {
    x.pos + BROADCAST_SLOTS < |log| && y.pos == |log| - BROADCAST_SLOTS && y.delivered == x.delivered && y.gate.awaiting
  }

  predicate Fed(s: State, e: Event, s': State, v: nat) {
    && v < |s.viewers| && v < |s'.viewers| && s.log <= s'.log && s'.viewers[v].pos <= |s'.log|
    && var x, y := s.viewers[v], s'.viewers[v];
    if e == Recv(v) && Lags(s, v) then Skips(x, s.log, y) else Stays(x, y) || ReadsOne(x, s.log, y)
  }

  lemma RecvFeeds(s: State, v: nat)
    requires v < |s.viewers| && s.viewers[v].pos <= |s.log|
    ensures Fed(s, Recv(v), DoRecv(s, v), v)
  {
    var pos := s.viewers[v].pos;
    if pos < |s.log| {
      var frames := [s.log[pos]];
      assert frames[1..] == [];
      assert Videos([]) == [] && FromKeyframe([]) == [] && !HasKeyframe([]);
      assert HasKeyframe(frames) <==> KeyframeAt(frames, 0);
    }
  }

  lemma OtherRecvFeeds(s: State, v: nat, u: nat)
    requires v < |s.viewers| && s.viewers[v].pos <= |s.log| && u != v
    ensures Fed(s, Recv(u), DoRecv(s, u), v)
  {
  }

  lemma StepFeeds(s: State, v: nat, e: Event)
    requires v < |s.viewers| && s.viewers[v].pos <= |s.log| && e != Resubscribe(v)
    ensures Fed(s, e, Apply(s, e), v)
  {
    if e.Recv? {
      if e.v == v {
        RecvFeeds(s, v);
      } else {
        OtherRecvFeeds(s, v, e.v);
      }
    }
  }

  // ---- runs ----

  /** A stretch of the broadcast that a viewer read without missing anything. */
  datatype Stretch = Stretch(from: nat, to: nat)

  function Slice(log: seq<StreamFrame>, g: Stretch): seq<StreamFrame> {
    if g.from <= g.to <= |log| then log[g.from..g.to] else []
  }

  /** What a viewer must get of the stretches it read: after a gap it waits for a keyframe. */
  function OwedOf(waiting: bool, log: seq<StreamFrame>, stretches: seq<Stretch>): seq<VideoFrame> {
    if stretches == [] then []
    else OwedOf(waiting, log, stretches[..|stretches| - 1]) + Owed(waiting || |stretches| > 1, Slice(log, Last(stretches)))
  }

  /** Reception `k` of the run tells `v` that it lags. */
  predicate LagAt(s: State, v: nat, events: seq<Event>, k: nat) {
    k < |events| && events[k] == Recv(v) && Lags(RunFrom(s, events[..k]), v)
  }

  predicate Within(log: seq<StreamFrame>, stretches: seq<Stretch>) {
    forall i | 0 <= i < |stretches| :: stretches[i].from <= stretches[i].to <= |log|
  }

  /** The gap from `g` to `h` is the one that reception `k` told of: it ends before the last
      four frames that were broadcast by then. */
  predicate Gap(s: State, v: nat, events: seq<Event>, k: nat, g: Stretch, h: Stretch) {
    && LagAt(s, v, events, k)
    && g.to == RunFrom(s, events[..k]).viewers[v].pos && h.from == |RunFrom(s, events[..k]).log| - BROADCAST_SLOTS
  }

  /** The run of `v` from `s`, cut at the receptions `lags` and nowhere else. */
  predicate Cut(s: State, v: nat, events: seq<Event>, stretches: seq<Stretch>, lags: seq<nat>) {
    && |stretches| == |lags| + 1 && v < |s.viewers| && stretches[0].from == s.viewers[v].pos
    && (forall i | 0 <= i < |lags| :: Gap(s, v, events, lags[i], stretches[i], stretches[i + 1]))
    && (forall k | 0 <= k < |events| && LagAt(s, v, events, k) :: k in lags)
  }

  /** What a viewer got that was waiting or not, had `before`, and read `stretches` of the log. */
  predicate Got(waiting: bool, before: seq<VideoFrame>, s: State, v: nat, stretches: seq<Stretch>) {
    && v < |s.viewers| && stretches != [] && Within(s.log, stretches) && s.viewers[v].pos == Last(stretches).to
    && s.viewers[v].delivered == before + OwedOf(waiting, s.log, stretches)
    && s.viewers[v].gate.awaiting == ((waiting || |stretches| > 1) && !HasKeyframe(Slice(s.log, Last(stretches))))
  }

  lemma {:induction false} OwedAppend(waiting: bool, frames: seq<StreamFrame>, f: StreamFrame)
    ensures Owed(waiting, frames + [f]) == Owed(waiting, frames) + Owed(waiting && !HasKeyframe(frames), [f])
    ensures HasKeyframe(frames + [f]) <==> HasKeyframe(frames) || HasKeyframe([f])
  {
    assert Videos([]) == [] && FromKeyframe([]) == [];
    if frames == [] {
      assert frames + [f] == [f];
    } else {
      var all := frames + [f];
      assert all[0] == frames[0] && all[1..] == frames[1..] + [f];
      OwedAppend(waiting && !KeyframeAt(frames, 0), frames[1..], f);
    }
  }

  lemma {:induction false} OwedStays(waiting: bool, log: seq<StreamFrame>, log': seq<StreamFrame>, stretches: seq<Stretch>)
    requires log <= log' && Within(log, stretches)
    ensures OwedOf(waiting, log', stretches) == OwedOf(waiting, log, stretches)
  {
    if stretches != [] {
      OwedStays(waiting, log, log', stretches[..|stretches| - 1]);
      assert log'[Last(stretches).from..Last(stretches).to] == log[Last(stretches).from..Last(stretches).to];
    }
  }

  /** The last stretch grows by the frame that was read. */
  lemma GrownOwes(waiting: bool, log: seq<StreamFrame>, stretches: seq<Stretch>, grown: seq<Stretch>)
    requires stretches != [] && Within(log, stretches) && Last(stretches).to < |log|
    requires grown == stretches[..|stretches| - 1] + [Last(stretches).(to := Last(stretches).to + 1)]
    ensures var w, read, f := waiting || |stretches| > 1, Slice(log, Last(stretches)), log[Last(stretches).to];
            && Within(log, grown) && Last(grown).to == Last(stretches).to + 1 && |grown| == |stretches|
            && OwedOf(waiting, log, grown) == OwedOf(waiting, log, stretches) + Owed(w && !HasKeyframe(read), [f])
            && (HasKeyframe(Slice(log, Last(grown))) <==> HasKeyframe(read) || HasKeyframe([f]))
  {
    var g := Last(stretches);
    assert grown[..|grown| - 1] == stretches[..|stretches| - 1];
    assert log[g.from..g.to + 1] == log[g.from..g.to] + [log[g.to]];
    OwedAppend(waiting || |stretches| > 1, log[g.from..g.to], log[g.to]);
    var o := OwedOf(waiting, log, stretches[..|stretches| - 1]);
    assert forall a, b: seq<VideoFrame> :: o + (a + b) == o + a + b;
  }

  function Grown(stretches: seq<Stretch>): seq<Stretch>
    requires stretches != []
  {
    stretches[..|stretches| - 1] + [Last(stretches).(to := Last(stretches).to + 1)]
  }

  lemma SkippedOwes(waiting: bool, log: seq<StreamFrame>, stretches: seq<Stretch>, at: nat)
    requires stretches != [] && Within(log, stretches) && at <= |log|
    ensures var cut := stretches + [Stretch(at, at)];
            && Within(log, cut) && OwedOf(waiting, log, cut) == OwedOf(waiting, log, stretches) && !HasKeyframe(Slice(log, Last(cut)))
  {
    var cut := stretches + [Stretch(at, at)];
    assert cut[..|cut| - 1] == stretches && log[at..at] == [];
    assert Videos([]) == [] && FromKeyframe([]) == [];
  }

  lemma StaysGot(waiting: bool, before: seq<VideoFrame>, s: State, s': State, v: nat, stretches: seq<Stretch>)
    requires Got(waiting, before, s, v, stretches) && s.log <= s'.log && v < |s'.viewers| && Stays(s.viewers[v], s'.viewers[v])
    ensures Got(waiting, before, s', v, stretches)
  {
    OwedStays(waiting, s.log, s'.log, stretches);
    var g := Last(stretches);
    assert s'.log[g.from..g.to] == s.log[g.from..g.to];
  }

  lemma ReadGot(waiting: bool, before: seq<VideoFrame>, s: State, s': State, v: nat, stretches: seq<Stretch>)
    requires Got(waiting, before, s, v, stretches) && s.log <= s'.log && v < |s'.viewers| && ReadsOne(s.viewers[v], s.log, s'.viewers[v])
    ensures Got(waiting, before, s', v, Grown(stretches))
  {
    GrownOwes(waiting, s.log, stretches, Grown(stretches));
    OwedStays(waiting, s.log, s'.log, Grown(stretches));
    var g, o := Last(Grown(stretches)), OwedOf(waiting, s.log, stretches);
    assert s'.log[g.from..g.to] == s.log[g.from..g.to];
    assert forall a: seq<VideoFrame> :: before + o + a == before + (o + a);
  }

  lemma SkipGot(waiting: bool, before: seq<VideoFrame>, s: State, s': State, v: nat, stretches: seq<Stretch>)
    requires Got(waiting, before, s, v, stretches) && s.log <= s'.log && v < |s'.viewers| && Skips(s.viewers[v], s.log, s'.viewers[v])
    ensures Got(waiting, before, s', v, stretches + [Stretch(s'.viewers[v].pos, s'.viewers[v].pos)])
  {
    OwedStays(waiting, s.log, s'.log, stretches);
    SkippedOwes(waiting, s'.log, stretches, s'.viewers[v].pos);
  }

  lemma LagsOfFront(s: State, v: nat, events: seq<Event>, k: nat)
    requires events != [] && k < |events| - 1
    ensures LagAt(s, v, events, k) <==> LagAt(s, v, events[..|events| - 1], k)
    ensures events[..k] == events[..|events| - 1][..k]
  {
    assert events[..k] == events[..|events| - 1][..k];
  }

  /** A run cut as before, with nothing missed by its last step. */
  lemma CutOn(s: State, v: nat, events: seq<Event>, stretches: seq<Stretch>, grown: seq<Stretch>, lags: seq<nat>)
    requires events != [] && Cut(s, v, events[..|events| - 1], stretches, lags) && !LagAt(s, v, events, |events| - 1)
    requires grown == stretches || grown == Grown(stretches)
    ensures Cut(s, v, events, grown, lags)
  {
    forall i | 0 <= i < |lags|
      ensures Gap(s, v, events, lags[i], grown[i], grown[i + 1])
    {
      assert Gap(s, v, events[..|events| - 1], lags[i], stretches[i], stretches[i + 1]);
      LagsOfFront(s, v, events, lags[i]);
    }
    forall k | 0 <= k < |events| && LagAt(s, v, events, k)
      ensures k in lags
    {
      LagsOfFront(s, v, events, k);
    }
  }

  lemma CutThere(s: State, v: nat, events: seq<Event>, stretches: seq<Stretch>, lags: seq<nat>, at: nat)
    requires events != [] && Cut(s, v, events[..|events| - 1], stretches, lags) && LagAt(s, v, events, |events| - 1)
    requires var t := RunFrom(s, events[..|events| - 1]);
             Last(stretches).to == t.viewers[v].pos && at == |t.log| - BROADCAST_SLOTS
    ensures Cut(s, v, events, stretches + [Stretch(at, at)], lags + [|events| - 1])
  {
    var cut, all := stretches + [Stretch(at, at)], lags + [|events| - 1];
    forall i | 0 <= i < |all|
      ensures Gap(s, v, events, all[i], cut[i], cut[i + 1])
    {
      if i < |lags| {
        assert Gap(s, v, events[..|events| - 1], lags[i], stretches[i], stretches[i + 1]);
        LagsOfFront(s, v, events, lags[i]);
      }
    }
    forall k | 0 <= k < |events| && LagAt(s, v, events, k)
      ensures k in all
    {
      if k < |events| - 1 {
        LagsOfFront(s, v, events, k);
        assert k in lags;
      } else {
        assert all[|lags|] == k;
      }
    }
  }

  lemma RunStays(s: State, events: seq<Event>)
    requires events != []
    ensures RunFrom(s, events) == Apply(RunFrom(s, events[..|events| - 1]), Last(events))
  {
    RunAppend(s, events[..|events| - 1], Last(events));
    assert events[..|events| - 1] + [Last(events)] == events;
  }

  /** Over every continuation, with anything going on beside it, a viewer that does not switch is
      given exactly this: its reading is cut where it was told that it lags, each time to go on
      with the four frames then retained. Of the first stretch it gets all video frames, or
      those from the first keyframe on if it was waiting; of every later stretch those from the
      first keyframe on. */
  lemma {:induction false} ViewerGetsExactly(s: State, v: nat, events: seq<Event>) returns (stretches: seq<Stretch>, lags: seq<nat>)
    requires v < |s.viewers| && s.viewers[v].pos <= |s.log| && Resubscribe(v) !in events
    ensures Cut(s, v, events, stretches, lags)
    ensures Got(s.viewers[v].gate.awaiting, s.viewers[v].delivered, RunFrom(s, events), v, stretches)
    decreases |events|
  {
    var waiting, before, pos := s.viewers[v].gate.awaiting, s.viewers[v].delivered, s.viewers[v].pos;
    if events == [] {
      stretches, lags := [Stretch(pos, pos)], [];
      NothingGot(s, v);
    } else {
      var front, e := events[..|events| - 1], Last(events);
      stretches, lags := ViewerGetsExactly(s, v, front);
      var t, s' := RunFrom(s, front), RunFrom(s, events);
      RunStays(s, events);
      assert e in events;
      StepFeeds(t, v, e);
      if e == Recv(v) && Lags(t, v) {
        SkipGot(waiting, before, t, s', v, stretches);
        CutThere(s, v, events, stretches, lags, s'.viewers[v].pos);
        stretches, lags := stretches + [Stretch(s'.viewers[v].pos, s'.viewers[v].pos)], lags + [|front|];
      } else if Stays(t.viewers[v], s'.viewers[v]) {
        StaysGot(waiting, before, t, s', v, stretches);
        CutOn(s, v, events, stretches, stretches, lags);
      } else {
        ReadGot(waiting, before, t, s', v, stretches);
        CutOn(s, v, events, stretches, Grown(stretches), lags);
        stretches := Grown(stretches);
      }
    }
  }

  lemma NothingGot(s: State, v: nat)
    requires v < |s.viewers| && s.viewers[v].pos <= |s.log|
    ensures var x := s.viewers[v];
            Got(x.gate.awaiting, x.delivered, s, v, [Stretch(x.pos, x.pos)])
  {
    var x := s.viewers[v];
    assert s.log[x.pos..x.pos] == [];
    assert Videos([]) == [] && FromKeyframe([]) == [] && OwedOf(x.gate.awaiting, s.log, []) == [];
    assert [Stretch(x.pos, x.pos)][..0] == [];
  }

  /** From its subscription on, in every run: of every stretch that a viewer read, from where
      the broadcast was when it subscribed, it was given the video frames from the first
      keyframe on. */
  lemma SubscriberGetsExactly(before: seq<Event>, events: seq<Event>) returns (stretches: seq<Stretch>, lags: seq<nat>)
    requires Resubscribe(|RunFrom(Init, before).viewers|) !in events
    ensures var s, v := RunFrom(Init, before), |RunFrom(Init, before).viewers|;
            && Cut(DoSubscribe(s), v, events, stretches, lags) && stretches[0].from == |s.log|
            && Got(true, [], RunFrom(DoSubscribe(s), events), v, stretches)
  {
    var s := RunFrom(Init, before);
    stretches, lags := ViewerGetsExactly(DoSubscribe(s), |s.viewers|, events);
  }

  /** And from a display switch on: it keeps what it had, and starts over with the new log. */
  lemma SwitcherGetsExactly(before: seq<Event>, v: nat, events: seq<Event>) returns (stretches: seq<Stretch>, lags: seq<nat>)
    requires v < |RunFrom(Init, before).viewers| && Resubscribe(v) !in events
    ensures var s := RunFrom(Init, before);
            && Cut(DoResubscribe(s, v), v, events, stretches, lags) && stretches[0].from == |s.log|
            && Got(true, s.viewers[v].delivered, RunFrom(DoResubscribe(s, v), events), v, stretches)
  {
    var s := RunFrom(Init, before);
    stretches, lags := ViewerGetsExactly(DoResubscribe(s, v), v, events);
  }
}
