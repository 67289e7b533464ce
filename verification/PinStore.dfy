/**
  The set of hosts known to speak the hybrid handshake (crates/rivetlink-sdk/src/pq_pins.rs):
  its file format, and the locked set with its background save tasks over whole runs.
 */
module PinStore {
  import opened Common
  import Base64

  /** A host is the base64 text of its identity key. */
  type Host = seq<byte>

  const NEWLINE: byte := 10
  const CARRIAGE_RETURN: byte := 13

  // ---- the file ----

  function IndexOfNewline(t: seq<byte>): (i: nat)
    ensures i <= |t| && (i < |t| ==> t[i] == NEWLINE) && NEWLINE !in t[..i]
  {
    if t == [] || t[0] == NEWLINE then 0
    else
      var i := IndexOfNewline(t[1..]);
      assert t[..1 + i] == [t[0]] + t[1..][..i];
      1 + i
  }

  function StripReturn(line: seq<byte>): seq<byte> {
    if line != [] && Last(line) == CARRIAGE_RETURN then line[..|line| - 1] else line
  }

  /** `str::lines`: a final newline ends the last line rather than starting an empty one. */
  function Lines(t: seq<byte>): seq<seq<byte>> {
    if t == [] then []
    else
      var i := IndexOfNewline(t);
      [StripReturn(t[..i])] + if i < |t| then Lines(t[i + 1..]) else []
  }

  function Pin(line: seq<byte>): set<Host> {
    var host := Base64.Trim(line);
    if host == [] then {} else {host}
  }

  function Pins(lines: seq<seq<byte>>): set<Host> {
    if lines == [] then {}
    else Pin(lines[0]) + Pins(lines[1..])
  }

  /** What `load` makes of a file; a missing file is an empty one. */
  function Load(t: seq<byte>): set<Host> {
    Pins(Lines(t))
  }

  /** What `save` writes for the hosts in the order given. */
  function Print(hosts: seq<Host>): seq<byte> {
    if hosts == [] then [] else hosts[0] + [NEWLINE] + Print(hosts[1..])
  }

  method WriteLines(hosts: seq<Host>) returns (t: seq<byte>)
    ensures t == Print(hosts)
  {
    t := [];
    var i := 0;
    while i < |hosts|
      invariant 0 <= i <= |hosts| && t + Print(hosts[i..]) == Print(hosts)
    {
      var host := hosts[i];
      assert hosts[i..][1..] == hosts[i + 1..];
      t := t + host + [NEWLINE];
      i := i + 1;
    }
  }

  /** No line break, not empty, no white space at either end. */
  predicate Good(host: Host) {
    host != [] && NEWLINE !in host && !Base64.Space(host[0]) && !Base64.Space(Last(host))
  }

  lemma FirstLine(a: seq<byte>, b: seq<byte>)
    requires NEWLINE !in a
    ensures IndexOfNewline(a + [NEWLINE] + b) == |a|
  {
    var t := a + [NEWLINE] + b;
    assert t[|a|] == NEWLINE && t[..|a|] == a;
  }

  lemma LoadFirstLine(a: seq<byte>, b: seq<byte>)
    requires NEWLINE !in a
    ensures Load(a + [NEWLINE] + b) == Pin(StripReturn(a)) + Load(b)
  {
    var t := a + [NEWLINE] + b;
    FirstLine(a, b);
    assert t[..|a|] == a && t[|a| + 1..] == b;
    assert Lines(t) == [StripReturn(a)] + Lines(b);
    assert ([StripReturn(a)] + Lines(b))[1..] == Lines(b);
  }

  lemma LoadLastLine(a: seq<byte>)
    requires NEWLINE !in a
    ensures Load(a) == Pin(StripReturn(a))
  {
    if a != [] {
      var i := IndexOfNewline(a);
      assert i == |a| && a[..i] == a;
      assert Lines(a) == [StripReturn(a)];
      assert Pins([]) == {};
    }
  }

  /** Damage is contained: what stands on one line never changes what the others load as. */
  lemma {:induction false} LoadOfLines(a: seq<byte>, b: seq<byte>)
    ensures Load(a + [NEWLINE] + b) == Load(a) + Load(b)
    decreases |a|
  {
    var i := IndexOfNewline(a);
    if i == |a| {
      assert a[..i] == a;
      LoadFirstLine(a, b);
      LoadLastLine(a);
    } else {
      var first, rest := a[..i], a[i + 1..];
      assert a == first + [NEWLINE] + rest;
      assert a + [NEWLINE] + b == first + [NEWLINE] + (rest + [NEWLINE] + b);
      LoadFirstLine(first, rest + [NEWLINE] + b);
      LoadFirstLine(first, rest);
      LoadOfLines(rest, b);
    }
  }

  lemma GoodPin(host: Host)
    requires Good(host)
    ensures Pin(StripReturn(host)) == {host}
  {
    assert Base64.TrimStart(host) == host;
  }

  predicate AllGood(hosts: set<Host>) {
    forall h | h in hosts :: Good(h)
  }

  /** `load` undoes `save`, whatever the order the hosts are written in. */
  lemma {:induction false} LoadOfPrint(hosts: seq<Host>)
    requires forall h | h in hosts :: Good(h)
    ensures Load(Print(hosts)) == set h | h in hosts
  {
    if hosts != [] {
      var first, rest := hosts[0], hosts[1..];
      assert hosts == [first] + rest;
      LoadOfPrint(rest);
      PrintedFirst(first, rest);
    }
  }

  lemma PrintedFirst(first: Host, rest: seq<Host>)
    requires Good(first) && Load(Print(rest)) == set h | h in rest
    ensures Load(Print([first] + rest)) == set h | h in [first] + rest
  {
    assert ([first] + rest)[1..] == rest;
    LoadFirstLine(first, Print(rest));
    GoodPin(first);
  }

  lemma {:induction false} TrimmedIsGood(t: seq<byte>)
    requires NEWLINE !in t && Base64.Trim(t) != []
    ensures Good(Base64.Trim(t))
    decreases |t|
  {
    if Base64.Space(t[0]) {
      TrimmedIsGood(t[1..]);
    } else if Base64.Space(Last(t)) {
      assert Base64.TrimStart(t[..|t| - 1]) == t[..|t| - 1];
      TrimmedIsGood(t[..|t| - 1]);
    }
  }

  /** Whatever the file holds, only well-formed hosts come out of it. */
  lemma {:induction false} LoadIsGood(t: seq<byte>)
    ensures AllGood(Load(t))
    decreases |t|
  {
    if t != [] {
      var i := IndexOfNewline(t);
      var line := StripReturn(t[..i]);
      assert forall c | c in line :: c in t[..i];
      if Base64.Trim(line) != [] {
        TrimmedIsGood(line);
      }
      assert t[..i] == if i < |t| then t[..i] else t;
      if i < |t| {
        assert t == t[..i] + [NEWLINE] + t[i + 1..];
        LoadFirstLine(t[..i], t[i + 1..]);
        LoadIsGood(t[i + 1..]);
      } else {
        LoadLastLine(t);
      }
    }
  }

  // ---- the process-wide set and its save tasks ----

  /** A save task that holds the save lock; `snapshot` is what it read under the set's lock. */
  datatype Saver = Saver(snapshot: Option<set<Host>>)

  /** `loads` are `use_store` calls between their read and the lock (`None`: unreadable).
      `waiting` counts spawned save tasks without the save lock. `added` says that a `remember`
      added a host with the store in use, `failed` that a save did not succeed. */
  datatype Store = Store(hosts: set<Host>, inUse: bool, unreadable: bool, file: seq<byte>,
                         loads: map<nat, Option<set<Host>>>, waiting: nat, saver: Option<Saver>, added: bool, failed: bool)

  datatype Event =
    | UseRead(u: nat, readable: bool)
    | UseApply(u: nat)
    | Remember(host: Host)
    | SaveLock
    | SaveSnapshot
    | SaveWrite(order: seq<Host>, ok: bool)

  function New(file: seq<byte>): Store {
    Store({}, false, false, file, map[], 0, None, false, false)
  }

  function DoUseRead(s: Store, u: nat, readable: bool): Store {
    if u in s.loads then s else s.(loads := s.loads[u := if readable then Some(Load(s.file)) else None])
  }

  function DoUseApply(s: Store, u: nat): Store {
    if u !in s.loads then s
    else if s.loads[u].None? then s.(unreadable := true, loads := s.loads - {u})
    else s.(hosts := s.hosts + s.loads[u].value, inUse := true, loads := s.loads - {u})
  }

  function DoRemember(s: Store, host: Host): Store {
    if host in s.hosts then s
    else if !s.inUse then s.(hosts := s.hosts + {host})
    else s.(hosts := s.hosts + {host}, waiting := s.waiting + 1, added := true)
  }

  function DoSaveLock(s: Store): Store {
    if s.waiting == 0 || s.saver.Some? then s else s.(waiting := s.waiting - 1, saver := Some(Saver(None)))
  }

  function DoSaveSnapshot(s: Store): Store {
    if s.saver != Some(Saver(None)) then s
    else if !s.inUse then s.(saver := None)
    else s.(saver := Some(Saver(Some(s.hosts))))
  }

  predicate Lists(order: seq<Host>, hosts: set<Host>) {
    (set h | h in order) == hosts
  }

  /** Written aside and renamed: the file is the old one or the complete new one. */
  function DoSaveWrite(s: Store, order: seq<Host>, ok: bool): Store {
    if s.saver.None? || s.saver.value.snapshot.None? || !Lists(order, s.saver.value.snapshot.value) then s
    else if ok then s.(file := Print(order), saver := None)
    else s.(saver := None, failed := true)
  }

  function Apply(s: Store, e: Event): Store {
    match e
    case UseRead(u, readable) => DoUseRead(s, u, readable)
    case UseApply(u) => DoUseApply(s, u)
    case Remember(host) => DoRemember(s, host)
    case SaveLock => DoSaveLock(s)
    case SaveSnapshot => DoSaveSnapshot(s)
    case SaveWrite(order, ok) => DoSaveWrite(s, order, ok)
  }

  function Run(s: Store, events: seq<Event>): Store
    decreases |events|
  {
    if events == [] then s else Apply(Run(s, events[..|events| - 1]), Last(events))
  }

  /** Callers remember encoded keys, which are well formed. */
  predicate GoodEvents(events: seq<Event>) {
    forall i | 0 <= i < |events| && events[i].Remember? :: Good(events[i].host)
  }

  /** A read in progress holds no host that is not in the file; before the store is in use,
      nothing writes, so it holds all of them. */
  predicate LoadsInv(s: Store) {
    forall u | u in s.loads && s.loads[u].Some? ::
      s.loads[u].value <= Load(s.file) && (s.inUse || s.loads[u].value == Load(s.file))
  }

  predicate SaverInv(s: Store) {
    s.saver.Some? && s.saver.value.snapshot.Some? ==>
      s.inUse && Load(s.file) <= s.saver.value.snapshot.value <= s.hosts
  }

  /** What is in memory and not in the file is on its way there. */
  predicate Coming(s: Store) {
    || s.waiting > 0
    || s.saver == Some(Saver(None)) || s.saver == Some(Saver(Some(s.hosts)))
    || Load(s.file) == s.hosts
  }

  predicate Inv(s: Store) {
    && AllGood(s.hosts)
    && (s.inUse ==> Load(s.file) <= s.hosts)
    && LoadsInv(s) && SaverInv(s) && (s.waiting > 0 || s.saver.Some? ==> s.inUse)
    && (s.added ==> s.inUse) && (s.added && !s.failed ==> Coming(s))
  }

  /** The file only ever gains hosts, and so does the set. */
  predicate Grows(s: Store, t: Store) {
    Load(s.file) <= Load(t.file) && s.hosts <= t.hosts && (s.unreadable ==> t.unreadable) && (s.inUse ==> t.inUse)
  }

  lemma UseReadKeeps(s: Store, u: nat, readable: bool)
    requires Inv(s)
    ensures Inv(DoUseRead(s, u, readable)) && Grows(s, DoUseRead(s, u, readable))
  {
  }

  lemma UseApplyKeeps(s: Store, u: nat)
    requires Inv(s)
    ensures Inv(DoUseApply(s, u)) && Grows(s, DoUseApply(s, u))
  {
    LoadIsGood(s.file);
    if u in s.loads && s.loads[u].Some? && s.inUse {
      assert s.hosts + s.loads[u].value == s.hosts;
    }
  }

  lemma RememberKeeps(s: Store, host: Host)
    requires Inv(s) && Good(host)
    ensures Inv(DoRemember(s, host)) && Grows(s, DoRemember(s, host))
  {
  }

  lemma SaveWriteKeeps(s: Store, order: seq<Host>, ok: bool)
    requires Inv(s)
    ensures Inv(DoSaveWrite(s, order, ok)) && Grows(s, DoSaveWrite(s, order, ok))
  {
    if s.saver.Some? && s.saver.value.snapshot.Some? && Lists(order, s.saver.value.snapshot.value) && ok {
      assert forall h | h in order :: h in s.saver.value.snapshot.value;
      LoadOfPrint(order);
    }
  }

  lemma StepKeeps(s: Store, e: Event)
    requires Inv(s) && (e.Remember? ==> Good(e.host))
    ensures Inv(Apply(s, e)) && Grows(s, Apply(s, e))
  {
    match e
    case UseRead(u, readable) => UseReadKeeps(s, u, readable);
    case UseApply(u) => UseApplyKeeps(s, u);
    case Remember(host) => RememberKeeps(s, host);
    case SaveLock =>
    case SaveSnapshot =>
    case SaveWrite(order, ok) => SaveWriteKeeps(s, order, ok);
  }

  lemma {:induction false} RunKeeps(s: Store, events: seq<Event>)
    requires Inv(s) && GoodEvents(events)
    ensures Inv(Run(s, events)) && Grows(s, Run(s, events))
    decreases |events|
  {
    if events != [] {
      RunKeeps(s, events[..|events| - 1]);
      StepKeeps(Run(s, events[..|events| - 1]), Last(events));
    }
  }

  /** Persistence, from any file and under any interleaving. With the store in use the file
      never holds a host that memory does not; no run makes it lose one; and once a `remember`
      added a host, nothing is pending and no save failed, it holds them all. */
  lemma FileFollowsMemory(file: seq<byte>, before: seq<Event>, after: seq<Event>)
    requires GoodEvents(before) && GoodEvents(after)
    ensures var s := Run(New(file), before);
            var t := Run(s, after);
            && (t.inUse ==> Load(t.file) <= t.hosts)
            && Load(file) <= Load(s.file) <= Load(t.file)
            && (t.added && !t.failed && t.waiting == 0 && t.saver.None? ==> Load(t.file) == t.hosts)
  {
    RunKeeps(New(file), before);
    RunKeeps(Run(New(file), before), after);
  }

  /** A host remembered with the store in use, or found in the file, is refused a downgrade by
      every later process once the save went through. */
  lemma NextProcessRemembers(file: seq<byte>, events: seq<Event>, u: nat, host: Host)
    requires GoodEvents(events)
    requires var t := Run(New(file), events);
             t.added && !t.failed && t.waiting == 0 && t.saver.None? && host in t.hosts
    ensures var next := New(Run(New(file), events).file);
            Refuses(DoUseApply(DoUseRead(next, u, true), u), host)
  {
    FileFollowsMemory(file, events, []);
    assert Run(Run(New(file), events), []) == Run(New(file), events);
  }

  predicate Refuses(s: Store, host: Host) {
    s.unreadable || host in s.hosts
  }

  /** A host is refused a downgrade from the moment it is remembered on. With the store in use
      and the host new to it, a save task is on its way. */
  lemma RememberedIsRefused(file: seq<byte>, before: seq<Event>, host: Host, after: seq<Event>)
    requires GoodEvents(before) && Good(host) && GoodEvents(after)
    ensures var s := Run(New(file), before);
            var t := Apply(s, Remember(host));
            && t.waiting == s.waiting + (if s.inUse && host !in s.hosts then 1 else 0)
            && Refuses(Run(t, after), host)
  {
    RunKeeps(New(file), before);
    var s := Run(New(file), before);
    StepKeeps(s, Remember(host));
    RunKeeps(Apply(s, Remember(host)), after);
  }

  /** `use_store` on a readable file refuses every host the file holds, and on one it cannot
      read refuses every host there is, for the rest of the process. */
  lemma LoadedIsRefused(file: seq<byte>, before: seq<Event>, u: nat, readable: bool, after: seq<Event>, host: Host)
    requires GoodEvents(before) && GoodEvents(after) && u !in Run(New(file), before).loads
    requires readable ==> host in Load(Run(New(file), before).file)
    ensures Refuses(Run(Apply(Apply(Run(New(file), before), UseRead(u, readable)), UseApply(u)), after), host)
  {
    RunKeeps(New(file), before);
    var s := Run(New(file), before);
    StepKeeps(s, UseRead(u, readable));
    var t := Apply(s, UseRead(u, readable));
    StepKeeps(t, UseApply(u));
    RunKeeps(Apply(t, UseApply(u)), after);
  }

  predicate OfUse(e: Event, u: nat) {
    (e.UseRead? || e.UseApply?) && e.u == u
  }

  lemma {:induction false} LoadStays(s: Store, u: nat, between: seq<Event>)
    requires u in s.loads && forall k | 0 <= k < |between| :: !OfUse(between[k], u)
    ensures u in Run(s, between).loads && Run(s, between).loads[u] == s.loads[u]
    decreases |between|
  {
    if between != [] {
      LoadStays(s, u, between[..|between| - 1]);
      assert Last(between) == between[|between| - 1];
    }
  }

  /** What one `use_store` does, with anything between its read and its lock: it makes the
      process refuse everything exactly if the file could not be read, and otherwise adds
      exactly the hosts that the file held when it was read and puts the store in use. */
  lemma StoreIsUsedExactly(s: Store, u: nat, readable: bool, between: seq<Event>)
    requires u !in s.loads && forall k | 0 <= k < |between| :: !OfUse(between[k], u)
    ensures var s1 := Run(Apply(s, UseRead(u, readable)), between);
            var t := Apply(s1, UseApply(u));
            && (t.unreadable <==> s1.unreadable || !readable) && (t.inUse <==> s1.inUse || readable)
            && t.hosts == s1.hosts + (if readable then Load(s.file) else {}) && t.file == s1.file && u !in t.loads
  {
    LoadStays(Apply(s, UseRead(u, readable)), u, between);
  }

  /** A step makes a host refused exactly if it remembers it, or ends a `use_store` that read
      it or could not read. */
  lemma RefusedExactly(s: Store, e: Event, host: Host)
    ensures Refuses(Apply(s, e), host)
            <==> || Refuses(s, host) || e == Remember(host)
                 || (e.UseApply? && e.u in s.loads && (s.loads[e.u].None? || host in s.loads[e.u].value))
  {
  }

  lemma {:induction false} SomeOrder(hosts: set<Host>) returns (order: seq<Host>)
    ensures Lists(order, hosts)
  {
    if hosts == {} {
      order := [];
    } else {
      var host :| host in hosts;
      var rest := SomeOrder(hosts - {host});
      order := [host] + rest;
      assert forall h :: h in order <==> h == host || h in rest;
      assert forall h :: h in rest <==> h in hosts - {host};
    }
  }

  /** A save in progress can be finished; it leaves the waiting ones and the set alone. */
  lemma SaverCanFinish(s: Store) returns (order: seq<Host>)
    requires Inv(s)
    ensures var t := DoSaveWrite(DoSaveSnapshot(s), order, true);
            Inv(t) && t.saver.None? && t.hosts == s.hosts && t.waiting == s.waiting && t.inUse == s.inUse && t.failed == s.failed
    ensures s.saver == Some(Saver(None)) ==> Load(DoSaveWrite(DoSaveSnapshot(s), order, true).file) == s.hosts
  {
    var s1 := DoSaveSnapshot(s);
    StepKeeps(s, SaveSnapshot);
    order := SomeOrder(if s1.saver.Some? && s1.saver.value.snapshot.Some? then s1.saver.value.snapshot.value else {});
    StepKeeps(s1, SaveWrite(order, true));
    if s.saver == Some(Saver(None)) {
      assert Lists(order, s.hosts);
      assert forall h | h in order :: h in s.hosts;
      LoadOfPrint(order);
    }
  }

  /** From every reachable state with a save task waiting, the save tasks alone can bring the
      file level with memory. */
  lemma SaveCanFinish(file: seq<byte>, events: seq<Event>) returns (after: seq<Event>)
    requires GoodEvents(events) && Run(New(file), events).waiting > 0
    ensures forall k | 0 <= k < |after| :: after[k].SaveLock? || after[k].SaveSnapshot? || after[k].SaveWrite?
    ensures var (s, t) := (Run(New(file), events), Run(Run(New(file), events), after));
            t.hosts == s.hosts == Load(t.file) && t.failed == s.failed && t.saver.None? && t.waiting == s.waiting - 1
  {
    RunKeeps(New(file), events);
    var s := Run(New(file), events);
    var first := SaverCanFinish(s);
    var s1 := DoSaveWrite(DoSaveSnapshot(s), first, true);
    StepKeeps(s1, SaveLock);
    var second := SaverCanFinish(DoSaveLock(s1));
    after := TwoSaves(first, second);
    TwoSavesRun(s, first, second);
  }

  /** The save in progress is finished, then the next one made. */
  function TwoSaves(first: seq<Host>, second: seq<Host>): seq<Event> {
    [SaveSnapshot] + [SaveWrite(first, true)] + [SaveLock] + [SaveSnapshot] + [SaveWrite(second, true)]
  }

  lemma RunAppends(s: Store, events: seq<Event>, e: Event)
    ensures Run(s, events + [e]) == Apply(Run(s, events), e)
  {
    assert (events + [e])[..|events + [e]| - 1] == events;
  }

  lemma TwoSavesRun(s: Store, first: seq<Host>, second: seq<Host>)
    ensures Run(s, TwoSaves(first, second)) == DoSaveWrite(DoSaveSnapshot(DoSaveLock(DoSaveWrite(DoSaveSnapshot(s), first, true))), second, true)
  {
    var one := [SaveSnapshot];
    assert one == [] + [SaveSnapshot] && Run(s, []) == s;
    RunAppends(s, [], SaveSnapshot);
    var two := one + [SaveWrite(first, true)];
    RunAppends(s, one, SaveWrite(first, true));
    RunAppends(s, two, SaveLock);
    RunAppends(s, two + [SaveLock], SaveSnapshot);
    RunAppends(s, two + [SaveLock] + [SaveSnapshot], SaveWrite(second, true));
  }

  /** The process: each method is one critical section of the source. */
  class Process {
    var hosts: set<Host>
    var inUse: bool
    var unreadable: bool
    var file: seq<byte>
    var loads: map<nat, Option<set<Host>>>
    var waiting: nat
    var saver: Option<Saver>
    ghost var added: bool
    ghost var failed: bool

    ghost function View(): Store
      reads this
    {
      Store(hosts, inUse, unreadable, file, loads, waiting, saver, added, failed)
    }

    constructor (contents: seq<byte>)
      ensures View() == New(contents)
    {
      hosts, inUse, unreadable, file, loads, waiting, saver := {}, false, false, contents, map[], 0, None;
      added, failed := false, false;
    }

    /** The second half of `use_store`. */
    method Use(u: nat) returns (ok: bool)
      requires u in loads
      modifies this
      ensures View() == DoUseApply(old(View()), u) && ok == old(loads)[u].Some?
    {
      var loaded := loads[u];
      loads := loads - {u};
      ok := loaded.Some?;
      if ok {
        hosts := hosts + loaded.value;
        inUse := true;
      } else {
        unreadable := true;
      }
    }

    method RememberHost(host: Host)
      modifies this
      ensures View() == DoRemember(old(View()), host)
    {
      if host in hosts {
        return;
      }
      hosts := hosts + {host};
      if inUse {
        waiting := waiting + 1;
        added := true;
      }
    }

    method RefusesDowngrade(host: Host) returns (refused: bool)
      ensures refused == Refuses(View(), host)
    {
      refused := unreadable || host in hosts;
    }

    /** A whole save task that gets the lock and is not interrupted. */
    method SaveTask(order: seq<Host>, ok: bool)
      requires Inv(View()) && inUse && waiting > 0 && saver.None? && Lists(order, hosts)
      modifies this
      ensures View() == DoSaveWrite(DoSaveSnapshot(DoSaveLock(old(View()))), order, ok)
      ensures ok ==> Load(file) == hosts == old(hosts)
    {
      waiting := waiting - 1;
      if ok {
        var text := WriteLines(order);
        file := text;
        assert forall h | h in order :: h in hosts;
        LoadOfPrint(order);
      } else {
        failed := true;
      }
    }
  }
}
