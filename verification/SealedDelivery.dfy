/**
  What the sealed channel must let through (crates/rivetlink-crypto/src/sealed.rs): a claim
  fails for two reasons only, and everything an endpoint claimed a number for can still reach
  its peer, from every reachable state.
 */
module SealedDelivery {
  import opened Common
  import opened Bytes
  import opened Crypto
  import opened Sealed

  // ---- claiming a number ----

  /** A step of thread `t` of endpoint `i` after its load. */
  predicate StepOf(e: Event, i: nat, t: nat) {
    || (e.CompareExchange? && e.i == i && e.t == t)
    || (e.Encrypt? && e.i == i && e.t == t)
  }

  /** Thread `t` of endpoint `i` holds exactly `thread`, and `i` has sealed at least `sealed`. */
  predicate Stands(s: State, i: nat, t: nat, thread: Thread, sealed: seq<seq<byte>>) {
    && i < |s.ends| && t in s.ends[i].threads && s.ends[i].threads[t] == thread
    && sealed <= s.ends[i].sealed
  }

  lemma {:induction false} ThreadStands(before: seq<Event>, between: seq<Event>, i: nat, t: nat, thread: Thread, sealed: seq<seq<byte>>)
    requires Stands(Run(before), i, t, thread, sealed)
    requires forall k | 0 <= k < |between| :: !StepOf(between[k], i, t)
    ensures Stands(Run(before + between), i, t, thread, sealed)
  {
    if between == [] {
      assert before + between == before;
    } else {
      var init, e := between[..|between| - 1], Last(between);
      ThreadStands(before, init, i, t, thread, sealed);
      assert (before + between)[..|before + between| - 1] == before + init;
      assert e == between[|between| - 1];
    }
  }

  /** What an exchange that expects `n` makes of endpoint `b`. */
  predicate Exchanged(b: Endpoint, c: Endpoint, t: nat, plaintext: seq<byte>, n: nat, spurious: bool) {
    && (c.sealed != b.sealed <==> n < U64_MAX && !spurious && |b.sealed| == n)
    && (c.sealed != b.sealed ==> c.sealed == b.sealed + [plaintext] && c.threads == b.threads[t := Claimed(plaintext, n)])
    && (t !in c.threads <==> n == U64_MAX)
    && (n < U64_MAX && c.sealed == b.sealed ==> c.threads == b.threads[t := Loaded(plaintext, |b.sealed|)])
  }

  lemma ExchangeStep(b: Endpoint, t: nat, plaintext: seq<byte>, n: nat, spurious: bool)
    requires Claims(b) && t in b.threads && b.threads[t] == Loaded(plaintext, n) && n <= U64_MAX
    ensures Exchanged(b, DoCompareExchange(b, t, spurious), t, plaintext, n, spurious)
  {
  }

  lemma RunAppends(events: seq<Event>, e: Event)
    ensures Run(events + [e]) == Apply(Run(events), e)
  {
    assert (events + [e])[..|events + [e]| - 1] == events;
  }

  /** A thread that loaded the counter claims that very number for its own plaintext exactly
      when the number is not the last one, the exchange did not fail for no reason, and no
      other thread claimed a number in between. It gives up only at the last number, and
      otherwise goes round again with the counter as it then is. */
  lemma ClaimIsMadeExactly(before: seq<Event>, i: nat, t: nat, plaintext: seq<byte>, between: seq<Event>, spurious: bool)
    requires i < |Run(before).ends| && t !in Run(before).ends[i].threads
    requires forall k | 0 <= k < |between| :: !StepOf(between[k], i, t)
    ensures var events := before + [Load(i, t, plaintext)] + between;
            var (n, b, c) := (|Run(before).ends[i].sealed|, Run(events), Run(events + [CompareExchange(i, t, spurious)]));
            i < |b.ends| && i < |c.ends| && Exchanged(b.ends[i], c.ends[i], t, plaintext, n, spurious)
  {
    var s := Run(before);
    var first := before + [Load(i, t, plaintext)];
    var events := first + between;
    RunAppends(before, Load(i, t, plaintext));
    RunKeeps(before);
    assert Claims(s.ends[i]);
    ThreadStands(first, between, i, t, Loaded(plaintext, |s.ends[i].sealed|), s.ends[i].sealed);
    RunKeeps(events);
    RunAppends(events, CompareExchange(i, t, spurious));
    ExchangeStep(Run(events).ends[i], t, plaintext, |s.ends[i].sealed|, spurious);
  }

  // ---- everything claimed can be delivered ----

  predicate Holds(e: Endpoint, n: nat) {
    exists t :: t in e.threads && e.threads[t].Claimed? && e.threads[t].sequence == n
  }

  /** A claimed number was sealed with, or its thread is still there to do it. */
  predicate Accounted(i: nat, e: Endpoint, origin: seq<(nat, nat)>) {
    forall n | 0 <= n < |e.sealed| :: (i, n) in origin || Holds(e, n)
  }

  predicate AllAccounted(s: State) {
    forall i | 0 <= i < |s.ends| :: Accounted(i, s.ends[i], s.origin)
  }

  /** The AEAD's output carries a tag. */
  predicate Tagged(events: seq<Event>) {
    forall k | 0 <= k < |events| && events[k].Encrypt? :: |events[k].ciphertext| >= TAG_LEN
  }

  lemma CompareExchangeAccounts(i: nat, d: Endpoint, t: nat, spurious: bool, origin: seq<(nat, nat)>)
    requires Claims(d) && Accounted(i, d, origin)
    ensures Accounted(i, DoCompareExchange(d, t, spurious), origin)
  {
    var e := DoCompareExchange(d, t, spurious);
    forall n | 0 <= n < |e.sealed| ensures (i, n) in origin || Holds(e, n) {
      if n < |d.sealed| {
        if (i, n) !in origin {
          assert Holds(d, n);
          var u :| u in d.threads && d.threads[u].Claimed? && d.threads[u].sequence == n;
          assert u in e.threads && e.threads[u].Claimed?;
        }
      } else {
        assert t in e.threads && e.threads[t].Claimed? && e.threads[t].sequence == n;
      }
    }
  }

  lemma EncryptAccounts(s: State, i: nat, t: nat, ciphertext: seq<byte>)
    requires i < |s.ends| && AllAccounted(s)
    ensures AllAccounted(DoEncrypt(s, i, t, ciphertext))
  {
    var s' := DoEncrypt(s, i, t, ciphertext);
    forall k | 0 <= k < |s'.ends| ensures Accounted(k, s'.ends[k], s'.origin) {
      assert Accounted(k, s.ends[k], s.origin);
      forall n | 0 <= n < |s'.ends[k].sealed| ensures (k, n) in s'.origin || Holds(s'.ends[k], n) {
        if (k, n) in s.origin {
          assert s.origin <= s'.origin;
        } else {
          assert Holds(s.ends[k], n);
          var u :| u in s.ends[k].threads && s.ends[k].threads[u].Claimed? && s.ends[k].threads[u].sequence == n;
          assert if k == i && u == t then Last(s'.origin) == (k, n) else u in s'.ends[k].threads && s'.ends[k].threads[u].Claimed?;
        }
      }
    }
  }

  lemma LoadAccounts(i: nat, d: Endpoint, t: nat, plaintext: seq<byte>, origin: seq<(nat, nat)>)
    requires Accounted(i, d, origin)
    ensures Accounted(i, DoLoad(d, t, plaintext), origin)
  {
    var e := DoLoad(d, t, plaintext);
    forall n | 0 <= n < |e.sealed| && (i, n) !in origin ensures Holds(e, n) {
      assert Holds(d, n);
      var u :| u in d.threads && d.threads[u].Claimed? && d.threads[u].sequence == n;
      assert u in e.threads && e.threads[u].Claimed?;
    }
  }

  lemma ReceiveAccounts(i: nat, d: Endpoint, packet: seq<byte>, log: seq<Sealing>, origin: seq<(nat, nat)>)
    requires Accounted(i, d, origin)
    ensures Accounted(i, DoReceive(d, packet, log), origin)
  {
    var e := DoReceive(d, packet, log);
    forall n | 0 <= n < |e.sealed| && (i, n) !in origin ensures Holds(e, n) {
      assert Holds(d, n);
    }
  }

  lemma StepAccounts(s: State, e: Event)
    requires Inv(s) && AllAccounted(s)
    ensures AllAccounted(Apply(s, e))
  {
    match e {
      case Connect(_, _, _) =>
      case Load(i, t, plaintext) =>
        if i < |s.ends| { LoadAccounts(i, s.ends[i], t, plaintext, s.origin); }
      case CompareExchange(i, t, spurious) =>
        if i < |s.ends| { CompareExchangeAccounts(i, s.ends[i], t, spurious, s.origin); }
      case Encrypt(i, t, ciphertext) => if i < |s.ends| { EncryptAccounts(s, i, t, ciphertext); }
      case Receive(i, packet) =>
        if i < |s.ends| { ReceiveAccounts(i, s.ends[i], packet, s.log, s.origin); }
    }
  }

  lemma {:induction false} RunAccounts(events: seq<Event>)
    ensures AllAccounted(Run(events))
    ensures Tagged(events) ==> forall k | 0 <= k < |Run(events).log| :: |Run(events).log[k].ciphertext| >= TAG_LEN
  {
    if events != [] {
      var init := events[..|events| - 1];
      RunKeeps(init);
      RunAccounts(init);
      StepAccounts(Run(init), Last(events));
    }
  }

  /** A number that was claimed can be sealed with, and the claims stay as they are. */
  lemma CanSeal(events: seq<Event>, j: nat, n: nat) returns (more: seq<Event>)
    requires Tagged(events) && j < |Run(events).ends| && n < |Run(events).ends[j].sealed|
    ensures Tagged(events + more) && (j, n) in Run(events + more).origin && SameSenders(Run(events), Run(events + more))
    ensures forall i | 0 <= i < |Run(events).ends| :: Run(events + more).ends[i].accepted == Run(events).ends[i].accepted
  {
    var s := Run(events);
    RunAccounts(events);
    if (j, n) in s.origin {
      more := [];
      assert events + more == events;
    } else {
      assert Accounted(j, s.ends[j], s.origin) && Holds(s.ends[j], n);
      var t :| t in s.ends[j].threads && s.ends[j].threads[t].Claimed? && s.ends[j].threads[t].sequence == n;
      more := [Encrypt(j, t, seq(TAG_LEN, _ => 0))];
      RunAppends(events, more[0]);
      assert Last(Run(events + more).origin) == (j, n);
    }
  }

  /** Same keys and same claims. */
  predicate SameSenders(s: State, s': State) {
    |s'.ends| == |s.ends| && forall k | 0 <= k < |s.ends| :: SameKeys(s'.ends[k].c, s.ends[k].c) && s'.ends[k].sealed == s.ends[k].sealed
  }

  lemma NextOpens(events: seq<Event>, i: nat, j: nat) returns (packet: seq<byte>)
    requires Tagged(events) && i < |Run(events).ends| && j < |Run(events).ends|
    requires var (a, b) := (Run(events).ends[j], Run(events).ends[i]);
             a.c.sendKey == b.c.recvKey && |b.accepted| < |a.sealed| && (j, |b.accepted|) in Run(events).origin
    ensures Open(Run(events).ends[i].c, packet, Run(events).log).r == Ok(Run(events).ends[j].sealed[|Run(events).ends[i].accepted|])
  {
    var s := Run(events);
    RunKeeps(events);
    RunAccounts(events);
    assert InOrder(s.ends, s.ends[i]);
    var k :| 0 <= k < |s.origin| && s.origin[k] == (j, |s.ends[i].accepted|);
    assert Recorded(s.ends, s.log[k], s.origin[k]);
    NextSealingOpens(events, i, k);
    packet := Header(s.ends[i].c.nextRecv) + s.log[k].ciphertext;
  }

  lemma ReceiveStep(s: State, i: nat, packet: seq<byte>, plaintext: seq<byte>)
    requires i < |s.ends| && Open(s.ends[i].c, packet, s.log).r == Ok(plaintext)
    ensures var s' := Apply(s, Receive(i, packet));
            SameSenders(s, s') && s'.ends[i].accepted == s.ends[i].accepted + [plaintext]
  {
    OpenChangesOnlyOnSuccess(s.ends[i].c, packet, s.log);
  }

  /** The peer of `j` accepts its next sealing. */
  lemma NextIsAccepted(events: seq<Event>, i: nat, j: nat) returns (e: Event)
    requires Tagged(events) && i < |Run(events).ends| && j < |Run(events).ends|
    requires var (a, b) := (Run(events).ends[j], Run(events).ends[i]);
             a.c.sendKey == b.c.recvKey && |b.accepted| < |a.sealed| && (j, |b.accepted|) in Run(events).origin
    ensures Tagged(events + [e]) && SameSenders(Run(events), Run(events + [e]))
    ensures |Run(events + [e]).ends[i].accepted| == |Run(events).ends[i].accepted| + 1
  {
    var packet := NextOpens(events, i, j);
    var s := Run(events);
    e := Receive(i, packet);
    RunAppends(events, e);
    ReceiveStep(s, i, packet, s.ends[j].sealed[|s.ends[i].accepted|]);
  }

  predicate Peers(s: State, i: nat, j: nat) {
    i < |s.ends| && j < |s.ends| && s.ends[j].c.sendKey == s.ends[i].c.recvKey
  }

  /** `s` has `i` as far behind `j` as `left` plaintexts. */
  predicate Behind(s: State, i: nat, j: nat, sealed: seq<seq<byte>>, left: nat) {
    Peers(s, i, j) && s.ends[j].sealed == sealed && |s.ends[i].accepted| + left == |sealed|
  }

  lemma OneMore(events: seq<Event>, i: nat, j: nat, sealed: seq<seq<byte>>, left: nat) returns (more: seq<Event>)
    requires Tagged(events) && Behind(Run(events), i, j, sealed, left) && left > 0
    ensures Tagged(events + more) && Behind(Run(events + more), i, j, sealed, left - 1)
  {
    var first := CanSeal(events, j, |Run(events).ends[i].accepted|);
    var e := NextIsAccepted(events + first, i, j);
    more := first + [e];
    assert events + more == events + first + [e];
  }

  lemma {:induction false} CanCatchUp(events: seq<Event>, i: nat, j: nat, sealed: seq<seq<byte>>, left: nat) returns (after: seq<Event>)
    requires Tagged(events) && Behind(Run(events), i, j, sealed, left)
    ensures Tagged(events + after) && Behind(Run(events + after), i, j, sealed, 0)
    decreases left
  {
    if left == 0 {
      after := [];
      assert events + after == events;
    } else {
      var more := OneMore(events, i, j, sealed, left);
      var rest := CanCatchUp(events + more, i, j, sealed, left - 1);
      after := more + rest;
      Associates(events, more, rest);
    }
  }

  /** From every reachable state, whatever the network did before, the threads in the middle
      of sealing and the network can go on so that an endpoint has accepted all its peer ever
      claimed a number for. */
  lemma ChannelCanDrain(events: seq<Event>, i: nat, j: nat) returns (after: seq<Event>)
    requires Tagged(events) && Peers(Run(events), i, j)
    ensures var s' := Run(events + after);
            Tagged(events + after) && Peers(s', i, j) && s'.ends[i].accepted == s'.ends[j].sealed == Run(events).ends[j].sealed
  {
    var s := Run(events);
    RunKeeps(events);
    assert InOrder(s.ends, s.ends[i]);
    after := CanCatchUp(events, i, j, s.ends[j].sealed, |s.ends[j].sealed| - |s.ends[i].accepted|);
    RunKeeps(events + after);
    assert InOrder(Run(events + after).ends, Run(events + after).ends[i]);
  }
}
