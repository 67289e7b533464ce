/**
  What an upload must achieve (crates/rivetlink-agent/src/console/shared_folder.rs): exactly when
  it is started, when a chunk is taken, and that a complete one becomes a file, whatever other
  uploads do meanwhile.
 */
module UploadRun {
  import opened Common
  import opened Share
  import opened SharedFolder

  // ---- when an upload starts ----

  /** Nothing but folders stands where the folders of `rest` go. */
  predicate Passable(tree: Tree, dir: Path, rest: seq<string>) {
    forall k | 0 < k <= |rest| :: dir + rest[..k] in tree ==> tree[dir + rest[..k]].Folder?
  }

  lemma PassableStep(tree: Tree, dir: Path, rest: seq<string>, grown: Tree)
    requires rest != [] && (grown == tree || (dir + [rest[0]] !in tree && grown == tree[dir + [rest[0]] := Folder]))
    ensures Passable(tree, dir, rest)
            <==> (dir + [rest[0]] in tree ==> tree[dir + [rest[0]]].Folder?) && Passable(grown, dir + [rest[0]], rest[1..])
  {
    var next := dir + [rest[0]];
    assert rest[..1] == [rest[0]];
    forall k | 0 < k < |rest|
      ensures next + rest[1..][..k] == dir + rest[..k + 1] && |dir + rest[..k + 1]| > |next|
    {
      assert rest[..k + 1] == [rest[0]] + rest[1..][..k];
    }
    if Passable(tree, dir, rest) {
      assert dir + rest[..1] == next;
    }
    if Passable(grown, next, rest[1..]) && (next in tree ==> tree[next].Folder?) {
      forall k | 0 < k <= |rest| && dir + rest[..k] in tree
        ensures tree[dir + rest[..k]].Folder?
      {
        if k > 1 {
          assert next + rest[1..][..k - 1] == dir + rest[..k];
        }
      }
    }
  }

  lemma {:induction false} ResolvesExactly(tree: Tree, dir: Path, rest: seq<string>)
    ensures Resolve(tree, dir, rest, true).r.Ok? <==> Passable(tree, dir, rest)
    decreases |rest|
  {
    if rest != [] {
      var next := dir + [rest[0]];
      var grown := if next in tree then tree else tree[next := Folder];
      PassableStep(tree, dir, rest, grown);
      ResolvesExactly(grown, next, rest[1..]);
    }
  }

  /** What a start asks of its arguments and of the folder as it is. */
  predicate Startable(s: State, id: nat, path: string, size: nat) {
    var components := RelativeComponents(path);
    && components.Some? && components.value != [] && size <= MAX_FILE_BYTES
    && id !in s.uploads && |s.uploads| < MAX_OPEN_UPLOADS
    && ([] in s.tree ==> s.tree[[]].Folder?)
    && var name, folders := Last(components.value), components.value[..|components.value| - 1];
    && !IsPartName(name) && Bytes(PartName(name, id)) <= NAME_MAX
    && Passable(s.tree, [], folders) && folders + [PartName(name, id)] !in s.tree
  }

  lemma RootPassable(tree: Tree, folders: seq<string>)
    requires [] !in tree
    ensures Passable(tree[[] := Folder], [], folders) <==> Passable(tree, [], folders)
  {
    assert forall k | 0 < k <= |folders| :: [] + folders[..k] != [];
  }

  /** The part file's name is not that of a folder the start makes. */
  lemma PartIsNew(tree: Tree, folders: seq<string>, part: string)
    requires [] in tree && tree[[]].Folder? && Resolve(tree, [], folders, true).r.Ok?
    ensures Resolve(tree, [], folders, true).r.value == folders
    ensures folders + [part] in Resolve(tree, [], folders, true).tree <==> folders + [part] in tree
  {
    ResolveStaysInside(tree, [], folders, true);
    ResolveAddsPrefixes(tree, [], folders);
    assert [] + folders == folders;
  }

  lemma {:induction false} ResolveAddsPrefixes(tree: Tree, dir: Path, rest: seq<string>)
    ensures forall p | p in Resolve(tree, dir, rest, true).tree && p !in tree :: |p| <= |dir| + |rest|
    decreases |rest|
  {
    if rest != [] {
      var next := dir + [rest[0]];
      var grown := if next in tree then tree else tree[next := Folder];
      if next !in tree || tree[next].Folder? {
        ResolveAddsPrefixes(grown, next, rest[1..]);
      }
    }
  }

  /** An upload starts exactly then, with an empty part file. */
  lemma StartsExactly(s: State, id: nat, path: string, size: nat)
    ensures DoStart(s, id, path, size).r.Ok? <==> Startable(s, id, path, size)
    ensures Startable(s, id, path, size) ==>
              var components := RelativeComponents(path).value;
              Begun(s, DoStart(s, id, path, size).s, id, Last(components), components[..|components| - 1], size)
  {
    var components := RelativeComponents(path);
    if components.Some? && components.value != [] {
      var name, folders := Last(components.value), components.value[..|components.value| - 1];
      var (tree, failed) := EnsureRoot(s.tree);
      EnsureRootGrows(s.tree);
      if failed.None? {
        if [] !in s.tree {
          RootPassable(s.tree, folders);
        }
        ResolvesExactly(tree, [], folders);
        if Resolve(tree, [], folders, true).r.Ok? {
          PartIsNew(tree, folders, PartName(name, id));
          assert folders + [PartName(name, id)] != [];
        }
      }
    }
  }

  predicate Begun(s: State, s': State, id: nat, name: string, folders: Path, size: nat) {
    var part := folders + [PartName(name, id)];
    && s'.uploads == s.uploads[id := Upload(folders, name, part, size, 0)] && s'.sent == s.sent[id := []]
    && s'.finished == s.finished && part in s'.tree && s'.tree[part] == Regular([])
  }

  // ---- which folders a start makes ----

  /** `p` is on the way to `dir + rest`, and nothing but folders stands before or at it. */
  predicate OnTheWay(tree: Tree, dir: Path, rest: seq<string>, p: Path) {
    exists k :: 0 < k <= |rest| && p == dir + rest[..k] && Passable(tree, dir, rest[..k])
  }

  lemma OnTheWayStep(tree: Tree, dir: Path, rest: seq<string>, grown: Tree, p: Path)
    requires rest != [] && (grown == tree || (dir + [rest[0]] !in tree && grown == tree[dir + [rest[0]] := Folder]))
    requires dir + [rest[0]] in tree ==> tree[dir + [rest[0]]].Folder?
    ensures OnTheWay(tree, dir, rest, p) <==> p == dir + [rest[0]] || OnTheWay(grown, dir + [rest[0]], rest[1..], p)
  {
    var next := dir + [rest[0]];
    assert rest[..1] == [rest[0]];
    forall k | 0 < k < |rest|
      ensures next + rest[1..][..k] == dir + rest[..k + 1]
      ensures Passable(tree, dir, rest[..k + 1]) <==> Passable(grown, next, rest[1..][..k])
    {
      PassableStep(tree, dir, rest[..k + 1], grown);
      assert rest[..k + 1] == [rest[0]] + rest[1..][..k];
      assert rest[..k + 1][1..] == rest[1..][..k];
    }
    if OnTheWay(tree, dir, rest, p) {
      var k :| 0 < k <= |rest| && p == dir + rest[..k] && Passable(tree, dir, rest[..k]);
      assert if k == 1 then p == next else p == next + rest[1..][..k - 1] && Passable(grown, next, rest[1..][..k - 1]);
    }
    if p == next {
      assert p == dir + rest[..1] && forall k | 0 < k <= 1 :: dir + rest[..1][..k] == next;
      assert Passable(tree, dir, rest[..1]);
    }
    if OnTheWay(grown, next, rest[1..], p) {
      var k :| 0 < k <= |rest[1..]| && p == next + rest[1..][..k] && Passable(grown, next, rest[1..][..k]);
      assert p == dir + rest[..k + 1] && Passable(tree, dir, rest[..k + 1]);
    }
  }

  /** Resolving adds exactly the folders on the way, up to the first thing that is none. */
  lemma {:induction false} ResolveMakesExactly(tree: Tree, dir: Path, rest: seq<string>, p: Path)
    ensures p in Resolve(tree, dir, rest, true).tree <==> p in tree || OnTheWay(tree, dir, rest, p)
    decreases |rest|
  {
    if rest != [] {
      var next := dir + [rest[0]];
      var grown := if next in tree then tree else tree[next := Folder];
      if next !in tree || tree[next].Folder? {
        OnTheWayStep(tree, dir, rest, grown, p);
        ResolveMakesExactly(grown, next, rest[1..], p);
      } else {
        forall k | 0 < k <= |rest|
          ensures !Passable(tree, dir, rest[..k])
        {
          assert rest[..k][..1] == [rest[0]];
          assert dir + rest[..k][..1] == next;
        }
      }
    }
  }

  /** The arguments of a start are accepted, and the root is no obstacle. */
  predicate Accepted(s: State, id: nat, path: string, size: nat, folders: Path, name: string) {
    && RelativeComponents(path) == Some(folders + [name]) && size <= MAX_FILE_BYTES && !IsPartName(name)
    && id !in s.uploads && |s.uploads| < MAX_OPEN_UPLOADS && ([] in s.tree ==> s.tree[[]].Folder?)
  }

  lemma StartTree(s: State, id: nat, path: string, size: nat, folders: Path, name: string)
    requires Accepted(s, id, path, size, folders, name)
    ensures var (out, dirs) := (DoStart(s, id, path, size), Resolve(EnsureRoot(s.tree).0, [], folders, true));
            && (out.r.Ok? ==> dirs.r.Ok? && out.s.tree == dirs.tree[dirs.r.value + [PartName(name, id)] := Regular([])]
                              && dirs.r.value + [PartName(name, id)] !in dirs.tree)
            && (out.r.Err? ==> out.s.tree == dirs.tree)
  {
    var components := folders + [name];
    assert components[..|components| - 1] == folders && Last(components) == name;
  }

  /** What a start leaves behind once its arguments are accepted, whether or not it succeeds:
      all there was, the root, the folders on the way to the file, and the part file if the
      upload was started. */
  lemma StartLeavesExactly(s: State, id: nat, path: string, size: nat, folders: Path, name: string, p: Path)
    requires Accepted(s, id, path, size, folders, name)
    ensures var out := DoStart(s, id, path, size);
            && (p in s.tree ==> p in out.s.tree && out.s.tree[p] == s.tree[p])
            && (p in out.s.tree <==> || p in s.tree || p == [] || OnTheWay(s.tree, [], folders, p)
                                     || (out.r.Ok? && p == folders + [PartName(name, id)]))
  {
    var (tree, _) := EnsureRoot(s.tree);
    StartTree(s, id, path, size, folders, name);
    ResolveMakesExactly(tree, [], folders, p);
    ResolveStaysInside(tree, [], folders, true);
    assert [] + folders == folders;
    RootOnTheWay(s.tree, tree, folders, p);
  }

  lemma RootOnTheWay(tree: Tree, rooted: Tree, folders: seq<string>, p: Path)
    requires rooted == tree || ([] !in tree && rooted == tree[[] := Folder])
    ensures OnTheWay(rooted, [], folders, p) <==> OnTheWay(tree, [], folders, p)
  {
    if rooted != tree {
      forall k | 0 < k <= |folders|
        ensures Passable(rooted, [], folders[..k]) <==> Passable(tree, [], folders[..k])
      {
        RootPassable(tree, folders[..k]);
      }
      if OnTheWay(rooted, [], folders, p) {
        var k :| 0 < k <= |folders| && p == [] + folders[..k] && Passable(rooted, [], folders[..k]);
        assert Passable(tree, [], folders[..k]);
      }
      if OnTheWay(tree, [], folders, p) {
        var k :| 0 < k <= |folders| && p == [] + folders[..k] && Passable(tree, [], folders[..k]);
        assert Passable(rooted, [], folders[..k]);
      }
    }
  }

  // ---- when a chunk is taken ----

  /** In every run a chunk is taken exactly when its upload is open, it is no longer than a
      chunk may be and fits what was declared; it is then the end of the part file. A chunk of
      an open upload that is not taken ends that upload. */
  lemma WritesExactly(tree: Tree, events: seq<Event>, id: nat, data: seq<byte>)
    ensures var s := Run(tree, events);
            var out := DoWrite(s, id, data);
            && (out.r.Ok? <==> id in s.uploads && |data| <= FILE_CHUNK_BYTES && s.uploads[id].written + |data| <= s.uploads[id].expected)
            && (out.r.Ok? ==> Appends(s, out.s, id, data))
            && (out.r.Err? ==> out.s == DoAbort(s, id))
  {
    RunKeeps(tree, events);
    var s := Run(tree, events);
    if id in s.uploads {
      assert UploadOk(tree, s, id);
    }
  }

  predicate Appends(s: State, s': State, id: nat, data: seq<byte>) {
    && id in s.uploads && id in s.sent && s.uploads[id].part in s.tree && s.tree[s.uploads[id].part].Regular?
    && var u := s.uploads[id];
    && s'.tree == s.tree[u.part := Regular(s.tree[u.part].data + data)]
    && s'.uploads == s.uploads[id := u.(written := u.written + |data|)]
    && s'.sent == s.sent[id := s.sent[id] + data] && s'.finished == s.finished
  }

  // ---- a complete upload becomes a file ----

  /** What events give to upload `id`. */
  function Given(events: seq<Event>, id: nat): seq<byte> {
    if events == [] then []
    else
      var e := Last(events);
      Given(events[..|events| - 1], id) + if e.Write? && e.id == id then e.data else []
  }

  /** Upload `id` is only written to, in chunks; other uploads may do anything. */
  predicate OnlyWrites(events: seq<Event>, id: nat) {
    forall e | e in events && e.id == id :: e.Write? && |e.data| <= FILE_CHUNK_BYTES
  }

  predicate Uploading(s: State, id: nat, name: string, folders: Path, size: nat, data: seq<byte>) {
    && id in s.uploads && id in s.sent && s.sent[id] == data
    && s.uploads[id] == Upload(folders, name, folders + [PartName(name, id)], size, |data|)
  }

  lemma OtherUpload(s: State, id: nat, e: Event)
    requires id in s.uploads && id in s.sent && e.id != id
    ensures var s' := Apply(s, e);
            id in s'.uploads && id in s'.sent && s'.uploads[id] == s.uploads[id] && s'.sent[id] == s.sent[id]
  {
  }

  lemma GivenStep(events: seq<Event>, id: nat)
    requires events != [] && OnlyWrites(events, id)
    ensures var front, e := events[..|events| - 1], Last(events);
            && OnlyWrites(front, id) && |Given(front, id)| <= |Given(events, id)|
            && (e.id == id ==> e.Write? && |e.data| <= FILE_CHUNK_BYTES && Given(events, id) == Given(front, id) + e.data)
            && (e.id != id ==> Given(events, id) == Given(front, id))
  {
    assert Last(events) in events;
  }

  /** A started upload has, after any events, exactly what it was given. */
  lemma {:induction false} UploadGoesOn(tree: Tree, before: seq<Event>, events: seq<Event>, id: nat, name: string, folders: Path, size: nat)
    requires Uploading(Run(tree, before), id, name, folders, size, [])
    requires OnlyWrites(events, id) && |Given(events, id)| <= size
    ensures Uploading(Run(tree, before + events), id, name, folders, size, Given(events, id))
    decreases |events|
  {
    if events == [] {
      assert before + events == before;
    } else {
      var front, e := events[..|events| - 1], Last(events);
      GivenStep(events, id);
      UploadGoesOn(tree, before, front, id, name, folders, size);
      assert (before + events)[..|before + events| - 1] == before + front && Last(before + events) == e;
      if e.id == id {
        WritesExactly(tree, before + front, id, e.data);
      } else {
        OtherUpload(Run(tree, before + front), id, e);
      }
    }
  }

  lemma StartedIsUploading(tree: Tree, before: seq<Event>, id: nat, path: string, size: nat)
    requires Startable(Run(tree, before), id, path, size)
    ensures var components := RelativeComponents(path).value;
            Uploading(Run(tree, before + [Start(id, path, size)]), id, Last(components), components[..|components| - 1], size, [])
  {
    StartsExactly(Run(tree, before), id, path, size);
    assert (before + [Start(id, path, size)])[..|before|] == before;
  }

  /** The file that a finish makes of a complete upload. */
  predicate Placed(s: State, s': State, folders: Path, name: string, data: seq<byte>) {
    exists n | 0 <= n < MAX_CANDIDATES ::
      && (forall k | 0 <= k < n :: Taken(s.tree, folders, name, k))
      && PlacedAt(s, s', folders + [Candidate(name, n)], data)
  }

  predicate PlacedAt(s: State, s': State, path: Path, data: seq<byte>) {
    path !in s.tree && path in s'.tree && s'.tree[path] == Regular(data) && s'.finished == s.finished + [Done(path, data, |data|)]
  }

  lemma FinishPlaces(tree: Tree, s: State, id: nat, name: string, folders: Path, data: seq<byte>)
    requires Uploading(s, id, name, folders, |data|, data) && UploadOk(tree, s, id) && !NoNameFree(s.tree, s.uploads[id])
    ensures DoFinish(s, id).r.Ok? && Placed(s, DoFinish(s, id).s, folders, name, data)
  {
    var n := FirstUnused(s.tree, folders, name, 0);
    assert n.Some?;
    assert PlacedAt(s, DoFinish(s, id).s, folders + [Candidate(name, n.value)], data);
  }

  /** In every run: an upload that could start and was given its data in any chunks, with any
      other uploads between them, is finished as a file with exactly that data, in the folder
      and under the first free candidate of the name asked for, if one is free. */
  lemma UploadCompletes(tree: Tree, before: seq<Event>, id: nat, path: string, data: seq<byte>, events: seq<Event>)
    requires Startable(Run(tree, before), id, path, |data|) && OnlyWrites(events, id) && Given(events, id) == data
    ensures var s := Run(tree, before + [Start(id, path, |data|)] + events);
            var components := RelativeComponents(path).value;
            && id in s.uploads
            && (!NoNameFree(s.tree, s.uploads[id]) ==>
                  DoFinish(s, id).r.Ok? && Placed(s, DoFinish(s, id).s, components[..|components| - 1], Last(components), data))
  {
    var started, components := before + [Start(id, path, |data|)], RelativeComponents(path).value;
    StartedIsUploading(tree, before, id, path, |data|);
    UploadGoesOn(tree, started, events, id, Last(components), components[..|components| - 1], |data|);
    RunKeeps(tree, started + events);
    var s := Run(tree, started + events);
    assert UploadOk(tree, s, id);
    if !NoNameFree(s.tree, s.uploads[id]) {
      FinishPlaces(tree, s, id, Last(components), components[..|components| - 1], data);
    }
  }

  /** Ending an upload removes its part file and nothing else. */
  lemma AbortsExactly(tree: Tree, events: seq<Event>, id: nat)
    requires id in Run(tree, events).uploads
    ensures var s := Run(tree, events);
            var s' := DoAbort(s, id);
            && id !in s'.uploads && s.uploads[id].part !in s'.tree && s'.finished == s.finished
            && (forall p | p in s.tree && p != s.uploads[id].part :: p in s'.tree && s'.tree[p] == s.tree[p])
            && (forall i | i in s.uploads && i != id :: i in s'.uploads && s'.uploads[i] == s.uploads[i])
  {
  }
}
