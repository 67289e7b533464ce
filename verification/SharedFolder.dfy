/**
  Uploads into the shared folder (crates/rivetlink-agent/src/console/shared_folder.rs): an
  abstract file system, up to four interleaved uploads through hidden part files, and what
  every run leaves behind. File-system calls succeed unless the tree itself forbids them.
 */
module SharedFolder {
  import opened Common
  import opened Share

  const MAX_OPEN_UPLOADS := 4

  /** Relative to the root, which is the empty path. */
  type Path = seq<string>

  datatype Entry = Folder | Regular(data: seq<byte>) | Link

  type Tree = map<Path, Entry>

  datatype ShareError = Rejected | Io

  datatype Upload = Upload(dir: Path, name: string, part: Path, expected: nat, written: nat)

  /** `sent` is what each open upload was given; `finished` the files completed, with their
      declared sizes; `leftovers` part files no upload owns any more. */
  datatype Done = Done(path: Path, data: seq<byte>, size: nat)

  datatype State = State(tree: Tree, uploads: map<nat, Upload>, sent: map<nat, seq<byte>>, finished: seq<Done>, leftovers: set<Path>)

  // ---- resolving folders ----

  datatype Resolved = Resolved(tree: Tree, r: Result<Path, ShareError>)

  /** Component by component; a link or file on the way is refused. */
  function Resolve(tree: Tree, dir: Path, rest: seq<string>, create: bool): Resolved
    decreases |rest|
  {
    if rest == [] then Resolved(tree, Ok(dir))
    else
      var next := dir + [rest[0]];
      if next in tree then
        if tree[next].Folder? then Resolve(tree, next, rest[1..], create) else Resolved(tree, Err(Rejected))
      else if create then Resolve(tree[next := Folder], next, rest[1..], create)
      else Resolved(tree, Err(Rejected))
  }

  method ResolveDirs(tree: Tree, components: seq<string>, create: bool) returns (out: Resolved)
    ensures out == Resolve(tree, [], components, create)
  {
    var fs, dir, i := tree, [], 0;
    while i < |components|
      invariant 0 <= i <= |components|
      invariant Resolve(fs, dir, components[i..], create) == Resolve(tree, [], components, create)
    {
      assert components[i..][1..] == components[i + 1..];
      dir := dir + [components[i]];
      if dir in fs {
        if !fs[dir].Folder? {
          return Resolved(fs, Err(Rejected));
        }
      } else if create {
        fs := fs[dir := Folder];
      } else {
        return Resolved(fs, Err(Rejected));
      }
      i := i + 1;
    }
    out := Resolved(fs, Ok(dir));
  }

  /** Only folders are added, nothing is changed, and a resolved path passes through real
      folders only: no link is followed. */
  lemma {:induction false} ResolveStaysInside(tree: Tree, dir: Path, rest: seq<string>, create: bool)
    requires dir in tree && tree[dir].Folder?
    ensures var out := Resolve(tree, dir, rest, create);
            && (forall p | p in tree :: p in out.tree && out.tree[p] == tree[p])
            && (forall p | p in out.tree && p !in tree :: create && out.tree[p].Folder?)
            && (out.r.Ok? ==> out.r.value == dir + rest
                              && forall k | |dir| <= k <= |dir + rest| :: (dir + rest)[..k] in out.tree && out.tree[(dir + rest)[..k]].Folder?)
            && (out.r.Err? ==> out.r.error.Rejected?)
    decreases |rest|
  {
    if rest == [] {
      assert dir + rest == dir && dir[..|dir|] == dir;
    } else {
      var next := dir + [rest[0]];
      assert next + rest[1..] == dir + rest && (dir + rest)[..|dir|] == dir;
      if next in tree {
        if tree[next].Folder? {
          ResolveStaysInside(tree, next, rest[1..], create);
        }
      } else if create {
        ResolveStaysInside(tree[next := Folder], next, rest[1..], create);
      }
    }
  }

  /** `create_dir_all` and the link check. */
  function EnsureRoot(tree: Tree): (Tree, Option<ShareError>) {
    if [] !in tree then (tree[[] := Folder], None)
    else match tree[[]]
      case Folder => (tree, None)
      case Link => (tree, Some(Rejected))
      case Regular(_) => (tree, Some(Io))
  }

  // ---- an unused name ----

  predicate Taken(tree: Tree, dir: Path, name: string, n: nat) {
    dir + [Candidate(name, n)] in tree
  }

  /** The first of the candidates from `n` on that does not exist. */
  function FirstUnused(tree: Tree, dir: Path, name: string, n: nat): (r: Option<nat>)
    requires n <= MAX_CANDIDATES
    ensures r.Some? ==> n <= r.value < MAX_CANDIDATES && !Taken(tree, dir, name, r.value)
    ensures forall k | n <= k < (if r.Some? then r.value else MAX_CANDIDATES) :: Taken(tree, dir, name, k)
    decreases MAX_CANDIDATES - n
  {
    if n == MAX_CANDIDATES then None
    else if Taken(tree, dir, name, n) then FirstUnused(tree, dir, name, n + 1)
    else Some(n)
  }

  method UnusedName(tree: Tree, dir: Path, name: string) returns (r: Option<string>)
    ensures r.Some? <==> exists n | 0 <= n < MAX_CANDIDATES :: !Taken(tree, dir, name, n)
    ensures r.Some? ==> FirstUnused(tree, dir, name, 0).Some? && r.value == Candidate(name, FirstUnused(tree, dir, name, 0).value)
  {
    var n := 0;
    while n < MAX_CANDIDATES
      invariant 0 <= n <= MAX_CANDIDATES && FirstUnused(tree, dir, name, 0) == FirstUnused(tree, dir, name, n)
      invariant forall k | 0 <= k < n :: Taken(tree, dir, name, k)
    {
      if dir + [Candidate(name, n)] !in tree {
        assert !Taken(tree, dir, name, n);
        return Some(Candidate(name, n));
      }
      n := n + 1;
    }
    r := None;
  }

  // ---- operations ----

  datatype Outcome<T> = Outcome(s: State, r: Result<T, ShareError>)

  function DoStart(s: State, id: nat, path: string, size: nat): Outcome<()> {
    var components := RelativeComponents(path);
    if components.None? || components.value == [] then Outcome(s, Err(Rejected))
    else
      var name, folders := Last(components.value), components.value[..|components.value| - 1];
      if size > MAX_FILE_BYTES || IsPartName(name) || id in s.uploads || |s.uploads| >= MAX_OPEN_UPLOADS then Outcome(s, Err(Rejected))
      else
        var (tree, failed) := EnsureRoot(s.tree);
        if failed.Some? then Outcome(s.(tree := tree), Err(failed.value)) else StartIn(s, Resolve(tree, [], folders, true), id, name, size)
  }

  /** The part file is made in the folder that was found or made. */
  function StartIn(s: State, dirs: Resolved, id: nat, name: string, size: nat): Outcome<()> {
    if dirs.r.Err? then Outcome(s.(tree := dirs.tree), Err(dirs.r.error))
    else
      var part := dirs.r.value + [PartName(name, id)];
      if part in dirs.tree || Bytes(PartName(name, id)) > NAME_MAX then Outcome(s.(tree := dirs.tree), Err(Io))
      else Outcome(s.(tree := dirs.tree[part := Regular([])],
                      uploads := s.uploads[id := Upload(dirs.r.value, name, part, size, 0)],
                      sent := s.sent[id := []]), Ok(()))
  }

  function DoAbort(s: State, id: nat): State {
    if id !in s.uploads then s
    else s.(tree := s.tree - {s.uploads[id].part}, uploads := s.uploads - {id}, sent := s.sent - {id})
  }

  function DoWrite(s: State, id: nat, data: seq<byte>): Outcome<()> {
    if id !in s.uploads then Outcome(s, Err(Rejected))
    else
      var u := s.uploads[id];
      if |data| > FILE_CHUNK_BYTES || u.written + |data| > u.expected then Outcome(DoAbort(s, id), Err(Rejected))
      else if u.part !in s.tree || !s.tree[u.part].Regular? || id !in s.sent then Outcome(s, Err(Io))
      else Outcome(s.(tree := s.tree[u.part := Regular(s.tree[u.part].data + data)],
                      uploads := s.uploads[id := u.(written := u.written + |data|)],
                      sent := s.sent[id := s.sent[id] + data]), Ok(()))
  }

  function DoFinish(s: State, id: nat): Outcome<Path> {
    if id !in s.uploads then Outcome(s, Err(Rejected))
    else
      var u, closed := s.uploads[id], s.(uploads := s.uploads - {id}, sent := s.sent - {id});
      if u.written != u.expected then Outcome(closed.(tree := s.tree - {u.part}), Err(Rejected))
      else
        var n := FirstUnused(s.tree, u.dir, u.name, 0);
        if n.None? || u.part !in s.tree || id !in s.sent then Outcome(closed.(leftovers := s.leftovers + {u.part}), Err(Io))
        else
          var path := u.dir + [Candidate(u.name, n.value)];
          Outcome(closed.(tree := (s.tree - {u.part})[path := s.tree[u.part]],
                          finished := s.finished + [Done(path, s.sent[id], u.expected)]), Ok(path))
  }

  datatype Event = Start(id: nat, path: string, size: nat) | Write(id: nat, data: seq<byte>) | Finish(id: nat) | Abort(id: nat)

  function Apply(s: State, e: Event): State {
    match e
    case Start(id, path, size) => DoStart(s, id, path, size).s
    case Write(id, data) => DoWrite(s, id, data).s
    case Finish(id) => DoFinish(s, id).s
    case Abort(id) => DoAbort(s, id)
  }

  function Run(tree: Tree, events: seq<Event>): State
    decreases |events|
  {
    if events == [] then State(tree, map[], map[], [], {}) else Apply(Run(tree, events[..|events| - 1]), Last(events))
  }

  // ---- invariants, relative to the tree the run began with ----

  predicate PartPath(p: Path) {
    p != [] && IsPartName(Last(p))
  }

  predicate UploadOk(tree0: Tree, s: State, id: nat)
    requires id in s.uploads
  {
    var u := s.uploads[id];
    && id in s.sent && |s.sent[id]| == u.written <= u.expected
    && u.part in s.tree && s.tree[u.part] == Regular(s.sent[id]) && u.part !in tree0 && u.part !in s.leftovers
    && PartPath(u.part) && u.part[..|u.part| - 1] == u.dir && !IsPartName(u.name) && Numberable(u.name)
  }

  predicate DoneOk(tree0: Tree, s: State, k: nat)
    requires k < |s.finished|
  {
    var f := s.finished[k];
    && f.path in s.tree && s.tree[f.path] == Regular(f.data) && |f.data| == f.size
    && f.path !in tree0 && f.path != [] && !PartPath(f.path) && Bytes(Last(f.path)) <= NAME_MAX
    && forall j | 0 <= j < k :: s.finished[j].path != f.path
  }

  predicate Kept(tree0: Tree, tree: Tree) {
    forall p | p in tree0 :: p in tree && tree[p] == tree0[p]
  }

  predicate Owned(s: State, p: Path) {
    exists id | id in s.uploads :: s.uploads[id].part == p
  }

  predicate LeftoverOk(tree0: Tree, s: State, p: Path) {
    p in s.tree && s.tree[p].Regular? && p !in tree0 && PartPath(p)
  }

  /** A new part file belongs to an open upload or was left over. */
  predicate PartOk(tree0: Tree, s: State, p: Path) {
    p in s.tree && p !in tree0 && s.tree[p].Regular? && PartPath(p) ==> p in s.leftovers || Owned(s, p)
  }

  predicate Uploads(tree0: Tree, s: State) {
    && |s.uploads| <= MAX_OPEN_UPLOADS
    && (forall id | id in s.uploads :: UploadOk(tree0, s, id))
    && (forall i, j | i in s.uploads && j in s.uploads && i != j :: s.uploads[i].part != s.uploads[j].part)
  }

  predicate Files(tree0: Tree, s: State) {
    && Kept(tree0, s.tree)
    && (forall k | 0 <= k < |s.finished| :: DoneOk(tree0, s, k))
    && (forall p | p in s.leftovers :: LeftoverOk(tree0, s, p))
    && (forall p | p in s.tree :: PartOk(tree0, s, p))
  }

  predicate Inv(tree0: Tree, s: State) {
    Uploads(tree0, s) && Files(tree0, s)
  }

  /** The tree gains folders only. */
  predicate Grown(tree: Tree, tree': Tree) {
    && (forall p | p in tree :: p in tree' && tree'[p] == tree[p])
    && (forall p | p in tree' && p !in tree :: tree'[p].Folder?)
  }

  lemma GrownKeeps(tree0: Tree, s: State, tree': Tree)
    requires Inv(tree0, s) && Grown(s.tree, tree')
    ensures Inv(tree0, s.(tree := tree'))
  {
    var s' := s.(tree := tree');
    forall id | id in s'.uploads
      ensures UploadOk(tree0, s', id)
    {
      assert UploadOk(tree0, s, id);
    }
    forall k | 0 <= k < |s'.finished|
      ensures DoneOk(tree0, s', k)
    {
      assert DoneOk(tree0, s, k);
    }
    forall p | p in s'.leftovers
      ensures LeftoverOk(tree0, s', p)
    {
      assert LeftoverOk(tree0, s, p);
    }
    forall p | p in s'.tree
      ensures PartOk(tree0, s', p)
    {
      if p in s.tree {
        assert PartOk(tree0, s, p);
      }
    }
  }

  lemma EnsureRootGrows(tree: Tree)
    ensures Grown(tree, EnsureRoot(tree).0)
    ensures EnsureRoot(tree).1.None? ==> [] in EnsureRoot(tree).0 && EnsureRoot(tree).0[[]].Folder?
  {
  }

  function Opened(s: State, id: nat, u: Upload): State {
    s.(tree := s.tree[u.part := Regular([])], uploads := s.uploads[id := u], sent := s.sent[id := []])
  }

  /** Opening a fresh part file. */
  predicate CanOpen(s: State, id: nat, u: Upload) {
    && id !in s.uploads && |s.uploads| < MAX_OPEN_UPLOADS && u.part !in s.tree && u.written == 0
    && PartPath(u.part) && u.part[..|u.part| - 1] == u.dir && !IsPartName(u.name) && Numberable(u.name)
  }

  lemma OpenedOk(tree0: Tree, s: State, id: nat, u: Upload, i: nat)
    requires Kept(tree0, s.tree) && u.part !in s.leftovers && CanOpen(s, id, u)
    requires i == id || (i in s.uploads && UploadOk(tree0, s, i))
    ensures UploadOk(tree0, Opened(s, id, u), i) && (i != id ==> s.uploads[i].part != u.part)
  {
  }

  lemma OpenUploads(tree0: Tree, s: State, id: nat, u: Upload)
    requires Uploads(tree0, s) && Kept(tree0, s.tree) && u.part !in s.leftovers && CanOpen(s, id, u)
    ensures Uploads(tree0, Opened(s, id, u))
  {
    var s' := Opened(s, id, u);
    assert s'.uploads.Keys == s.uploads.Keys + {id} && |s'.uploads| == |s'.uploads.Keys| && |s.uploads| == |s.uploads.Keys|;
    forall i | i in s'.uploads
      ensures UploadOk(tree0, s', i) && (i != id ==> s'.uploads[i].part != u.part)
    {
      OpenedOk(tree0, s, id, u, i);
    }
  }

  lemma OpenFiles(tree0: Tree, s: State, id: nat, u: Upload)
    requires Files(tree0, s) && CanOpen(s, id, u)
    ensures Files(tree0, Opened(s, id, u)) && u.part !in s.leftovers
  {
    var s' := Opened(s, id, u);
    forall k | 0 <= k < |s'.finished|
      ensures DoneOk(tree0, s', k)
    {
      assert DoneOk(tree0, s, k);
    }
    forall p | p in s'.leftovers
      ensures LeftoverOk(tree0, s', p) && p != u.part
    {
      assert LeftoverOk(tree0, s, p);
    }
    forall p | p in s'.tree
      ensures PartOk(tree0, s', p)
    {
      if p == u.part {
        assert s'.uploads[id].part == p;
      } else {
        assert PartOk(tree0, s, p);
        OwnedStays(s, s', p);
      }
    }
  }

  lemma OwnedStays(s: State, s': State, p: Path)
    requires forall id | id in s.uploads :: id in s'.uploads && s'.uploads[id].part == s.uploads[id].part
    ensures Owned(s, p) ==> Owned(s', p)
  {
    if Owned(s, p) {
      var id :| id in s.uploads && s.uploads[id].part == p;
      assert s'.uploads[id].part == p;
    }
  }

  lemma StartInKeeps(tree0: Tree, s: State, dirs: Resolved, id: nat, name: string, size: nat)
    requires Inv(tree0, s.(tree := dirs.tree)) && id !in s.uploads && |s.uploads| < MAX_OPEN_UPLOADS && size <= MAX_FILE_BYTES
    requires !IsPartName(name)
    ensures Inv(tree0, StartIn(s, dirs, id, name, size).s)
  {
    if dirs.r.Ok? {
      var part, t := dirs.r.value + [PartName(name, id)], s.(tree := dirs.tree);
      if part !in dirs.tree && Bytes(PartName(name, id)) <= NAME_MAX {
        PartNameBytes(name, id);
        assert part[..|part| - 1] == dirs.r.value;
        OpenFiles(tree0, t, id, Upload(dirs.r.value, name, part, size, 0));
        OpenUploads(tree0, t, id, Upload(dirs.r.value, name, part, size, 0));
      }
    }
  }

  lemma StartKeeps(tree0: Tree, s: State, id: nat, path: string, size: nat)
    requires Inv(tree0, s)
    ensures Inv(tree0, DoStart(s, id, path, size).s)
  {
    var components := RelativeComponents(path);
    if components.Some? && components.value != [] {
      var name, folders := Last(components.value), components.value[..|components.value| - 1];
      if !(size > MAX_FILE_BYTES || IsPartName(name) || id in s.uploads || |s.uploads| >= MAX_OPEN_UPLOADS) {
        var (tree, failed) := EnsureRoot(s.tree);
        EnsureRootGrows(s.tree);
        GrownKeeps(tree0, s, tree);
        if failed.None? {
          var dirs := Resolve(tree, [], folders, true);
          ResolveStaysInside(tree, [], folders, true);
          GrownKeeps(tree0, s.(tree := tree), dirs.tree);
          StartInKeeps(tree0, s, dirs, id, name, size);
        }
      }
    }
  }

  lemma WriteKeeps(tree0: Tree, s: State, id: nat, data: seq<byte>)
    requires Inv(tree0, s)
    ensures Inv(tree0, DoWrite(s, id, data).s)
  {
    if id in s.uploads {
      var u := s.uploads[id];
      assert UploadOk(tree0, s, id);
      if |data| > FILE_CHUNK_BYTES || u.written + |data| > u.expected {
        AbortKeeps(tree0, s, id);
      } else {
        WriteUploads(tree0, s, id, data);
        WriteFiles(tree0, s, id, data);
      }
    }
  }

  function Appended(s: State, id: nat, data: seq<byte>): State
    requires id in s.uploads && id in s.sent
  {
    var u := s.uploads[id];
    s.(tree := s.tree[u.part := Regular(s.sent[id] + data)], uploads := s.uploads[id := u.(written := u.written + |data|)],
       sent := s.sent[id := s.sent[id] + data])
  }

  lemma WrittenOk(tree0: Tree, s: State, id: nat, data: seq<byte>, i: nat)
    requires id in s.uploads && i in s.uploads && UploadOk(tree0, s, i) && UploadOk(tree0, s, id)
    requires s.uploads[id].written + |data| <= s.uploads[id].expected && (i != id ==> s.uploads[i].part != s.uploads[id].part)
    ensures UploadOk(tree0, Appended(s, id, data), i) && Appended(s, id, data).uploads[i].part == s.uploads[i].part
  {
  }

  lemma WriteUploads(tree0: Tree, s: State, id: nat, data: seq<byte>)
    requires Uploads(tree0, s) && id in s.uploads && id in s.sent && s.uploads[id].written + |data| <= s.uploads[id].expected
    ensures Uploads(tree0, Appended(s, id, data))
  {
    var s' := Appended(s, id, data);
    assert s'.uploads.Keys == s.uploads.Keys && |s'.uploads| == |s'.uploads.Keys| && |s.uploads| == |s.uploads.Keys|;
    forall i | i in s'.uploads
      ensures UploadOk(tree0, s', i) && s'.uploads[i].part == s.uploads[i].part
    {
      WrittenOk(tree0, s, id, data, i);
    }
  }

  lemma WriteFiles(tree0: Tree, s: State, id: nat, data: seq<byte>)
    requires Files(tree0, s) && id in s.uploads && UploadOk(tree0, s, id)
    ensures Files(tree0, Appended(s, id, data))
  {
    var s' := Appended(s, id, data);
    forall k | 0 <= k < |s'.finished|
      ensures DoneOk(tree0, s', k)
    {
      assert DoneOk(tree0, s, k);
    }
    forall p | p in s'.leftovers
      ensures LeftoverOk(tree0, s', p)
    {
      assert LeftoverOk(tree0, s, p);
    }
    forall p | p in s'.tree
      ensures PartOk(tree0, s', p)
    {
      assert PartOk(tree0, s, p);
      OwnedStays(s, s', p);
    }
  }

  /** An upload is closed; its part file is gone, or is the only one left over. */
  predicate ClosedOnly(s: State, s': State, id: nat) {
    && id in s.uploads && s'.uploads == s.uploads - {id} && s'.sent == s.sent - {id}
    && s'.leftovers <= s.leftovers + {s.uploads[id].part}
    && forall p | p in s.tree && p != s.uploads[id].part :: p in s'.tree && s'.tree[p] == s.tree[p]
  }

  lemma CloseUploads(tree0: Tree, s: State, s': State, id: nat)
    requires Uploads(tree0, s) && ClosedOnly(s, s', id)
    ensures Uploads(tree0, s')
  {
    assert s'.uploads.Keys == s.uploads.Keys - {id} && |s'.uploads| == |s'.uploads.Keys| && |s.uploads| == |s.uploads.Keys|;
    forall i | i in s'.uploads
      ensures UploadOk(tree0, s', i)
    {
      assert UploadOk(tree0, s, i);
    }
  }

  lemma OwnedExcept(s: State, s': State, id: nat, p: Path)
    requires id in s.uploads && s'.uploads == s.uploads - {id} && s.uploads[id].part != p && Owned(s, p)
    ensures Owned(s', p)
  {
    var i :| i in s.uploads && s.uploads[i].part == p;
    assert s'.uploads[i].part == p;
  }

  /** The part file is removed. */
  lemma RemoveFiles(tree0: Tree, s: State, id: nat)
    requires Files(tree0, s) && id in s.uploads && UploadOk(tree0, s, id)
    ensures Files(tree0, DoAbort(s, id)) && ClosedOnly(s, DoAbort(s, id), id)
  {
    var s' := DoAbort(s, id);
    forall k | 0 <= k < |s'.finished|
      ensures DoneOk(tree0, s', k)
    {
      assert DoneOk(tree0, s, k);
    }
    forall p | p in s'.leftovers
      ensures LeftoverOk(tree0, s', p)
    {
      assert LeftoverOk(tree0, s, p);
    }
    forall p | p in s'.tree
      ensures PartOk(tree0, s', p)
    {
      assert PartOk(tree0, s, p);
      if Owned(s, p) {
        OwnedExcept(s, s', id, p);
      }
    }
  }

  lemma AbortKeeps(tree0: Tree, s: State, id: nat)
    requires Inv(tree0, s)
    ensures Inv(tree0, DoAbort(s, id))
  {
    if id in s.uploads {
      assert UploadOk(tree0, s, id);
      RemoveFiles(tree0, s, id);
      CloseUploads(tree0, s, DoAbort(s, id), id);
    }
  }

  /** Renamed into place under an unused name. */
  function Placed(s: State, id: nat, path: Path): State
    requires id in s.uploads && id in s.sent && s.uploads[id].part in s.tree
  {
    var u := s.uploads[id];
    s.(tree := (s.tree - {u.part})[path := s.tree[u.part]], uploads := s.uploads - {id}, sent := s.sent - {id},
       finished := s.finished + [Done(path, s.sent[id], u.expected)])
  }

  lemma PlacedDone(tree0: Tree, s: State, id: nat, path: Path, k: nat)
    requires id in s.uploads && UploadOk(tree0, s, id) && s.uploads[id].written == s.uploads[id].expected
    requires path !in s.tree && path != [] && !PartPath(path) && Bytes(Last(path)) <= NAME_MAX && Kept(tree0, s.tree)
    requires k <= |s.finished| && forall j | 0 <= j < |s.finished| :: DoneOk(tree0, s, j)
    ensures DoneOk(tree0, Placed(s, id, path), k)
  {
    if k < |s.finished| {
      assert DoneOk(tree0, s, k);
    } else {
      forall j | 0 <= j < k
        ensures s.finished[j].path != path
      {
        assert DoneOk(tree0, s, j);
      }
    }
  }

  lemma PlaceFiles(tree0: Tree, s: State, id: nat, path: Path)
    requires Files(tree0, s) && id in s.uploads && UploadOk(tree0, s, id) && s.uploads[id].written == s.uploads[id].expected
    requires path !in s.tree && path != [] && !PartPath(path) && Bytes(Last(path)) <= NAME_MAX
    ensures Files(tree0, Placed(s, id, path)) && ClosedOnly(s, Placed(s, id, path), id)
  {
    var s' := Placed(s, id, path);
    forall k | 0 <= k < |s'.finished|
      ensures DoneOk(tree0, s', k)
    {
      PlacedDone(tree0, s, id, path, k);
    }
    forall p | p in s'.leftovers
      ensures LeftoverOk(tree0, s', p)
    {
      assert LeftoverOk(tree0, s, p);
    }
    forall p | p in s'.tree
      ensures PartOk(tree0, s', p)
    {
      if p != path {
        assert PartOk(tree0, s, p);
        if Owned(s, p) {
          OwnedExcept(s, s', id, p);
        }
      }
    }
  }

  /** No name was free: the part file stays and belongs to no upload. */
  function Abandoned(s: State, id: nat): State
    requires id in s.uploads
  {
    s.(uploads := s.uploads - {id}, sent := s.sent - {id}, leftovers := s.leftovers + {s.uploads[id].part})
  }

  lemma AbandonFiles(tree0: Tree, s: State, id: nat)
    requires Files(tree0, s) && id in s.uploads && UploadOk(tree0, s, id)
    ensures Files(tree0, Abandoned(s, id)) && ClosedOnly(s, Abandoned(s, id), id)
  {
    var s' := Abandoned(s, id);
    forall k | 0 <= k < |s'.finished|
      ensures DoneOk(tree0, s', k)
    {
      assert DoneOk(tree0, s, k);
    }
    forall p | p in s'.tree
      ensures PartOk(tree0, s', p)
    {
      assert PartOk(tree0, s, p);
      if Owned(s, p) && p != s.uploads[id].part {
        OwnedExcept(s, s', id, p);
      }
    }
  }

  lemma FinishKeeps(tree0: Tree, s: State, id: nat)
    requires Inv(tree0, s)
    ensures Inv(tree0, DoFinish(s, id).s)
  {
    if id in s.uploads {
      var u := s.uploads[id];
      assert UploadOk(tree0, s, id);
      var n := FirstUnused(s.tree, u.dir, u.name, 0);
      if u.written != u.expected {
        AbortKeeps(tree0, s, id);
      } else if n.None? {
        AbandonFiles(tree0, s, id);
        CloseUploads(tree0, s, Abandoned(s, id), id);
      } else {
        var path := u.dir + [Candidate(u.name, n.value)];
        CandidateIsNoPart(u.name, n.value);
        NumberedFits(u.name, n.value);
        PlaceFiles(tree0, s, id, path);
        CloseUploads(tree0, s, Placed(s, id, path), id);
      }
    }
  }

  lemma StepKeeps(tree0: Tree, s: State, e: Event)
    requires Inv(tree0, s)
    ensures Inv(tree0, Apply(s, e))
  {
    match e
    case Start(id, path, size) => StartKeeps(tree0, s, id, path, size);
    case Write(id, data) => WriteKeeps(tree0, s, id, data);
    case Finish(id) => FinishKeeps(tree0, s, id);
    case Abort(id) => AbortKeeps(tree0, s, id);
  }

  lemma {:induction false} RunKeeps(tree: Tree, events: seq<Event>)
    ensures Inv(tree, Run(tree, events))
    decreases |events|
  {
    if events != [] {
      RunKeeps(tree, events[..|events| - 1]);
      StepKeeps(tree, Run(tree, events[..|events| - 1]), Last(events));
    }
  }

  // ---- the theorems ----

  /** The regular files with a part name that the run made. */
  function PartFiles(tree0: Tree, tree: Tree): set<Path> {
    set p | p in tree && p !in tree0 && tree[p].Regular? && PartPath(p)
  }

  function OpenParts(s: State): set<Path> {
    set id | id in s.uploads :: s.uploads[id].part
  }

  lemma PartFilesAreKnown(tree: Tree, s: State)
    requires Inv(tree, s)
    ensures PartFiles(tree, s.tree) == OpenParts(s) + s.leftovers && OpenParts(s) !! s.leftovers
  {
    forall p | p in PartFiles(tree, s.tree)
      ensures p in OpenParts(s) + s.leftovers
    {
      assert PartOk(tree, s, p);
    }
    forall p | p in OpenParts(s)
      ensures p in PartFiles(tree, s.tree) && p !in s.leftovers
    {
      var id :| id in s.uploads && s.uploads[id].part == p;
      assert UploadOk(tree, s, id);
    }
    forall p | p in s.leftovers
      ensures p in PartFiles(tree, s.tree)
    {
      assert LeftoverOk(tree, s, p);
    }
  }

  /** Upload conservation. Whatever the interleaving of up to four uploads: nothing that was
      there before changes; every finished file holds exactly the bytes its own upload was
      sent, as many as declared, at a path of its own that is no part name; and the part files
      are exactly those of open uploads and the ones left over. */
  lemma UploadsConserve(tree: Tree, events: seq<Event>)
    ensures var s := Run(tree, events);
            && |s.uploads| <= MAX_OPEN_UPLOADS
            && Kept(tree, s.tree)
            && (forall k | 0 <= k < |s.finished| :: DoneOk(tree, s, k))
            && PartFiles(tree, s.tree) == OpenParts(s) + s.leftovers && OpenParts(s) !! s.leftovers
  {
    RunKeeps(tree, events);
    PartFilesAreKnown(tree, Run(tree, events));
  }

  predicate NoNameFree(tree: Tree, u: Upload) {
    forall n | 0 <= n < MAX_CANDIDATES :: Taken(tree, u.dir, u.name, n)
  }

  lemma OnlyFinishLeaves(s: State, e: Event)
    requires !e.Finish?
    ensures Apply(s, e).leftovers == s.leftovers
  {
  }

  lemma FinishLeaves(tree: Tree, s: State, id: nat)
    requires id in s.uploads && UploadOk(tree, s, id)
    ensures DoFinish(s, id).s.leftovers != s.leftovers <==> s.uploads[id].written == s.uploads[id].expected && NoNameFree(s.tree, s.uploads[id])
  {
    var u := s.uploads[id];
    var n := FirstUnused(s.tree, u.dir, u.name, 0);
    if n.Some? {
      assert !Taken(s.tree, u.dir, u.name, n.value);
    }
  }

  /** A step leaves a part file behind exactly when it finishes a complete upload whose ten
      thousand candidate names all exist. */
  lemma LeftBehindExactly(tree: Tree, events: seq<Event>, e: Event)
    ensures var s := Run(tree, events);
            var s' := Apply(s, e);
            s'.leftovers != s.leftovers <==>
              e.Finish? && e.id in s.uploads && s.uploads[e.id].written == s.uploads[e.id].expected && NoNameFree(s.tree, s.uploads[e.id])
  {
    RunKeeps(tree, events);
    var s := Run(tree, events);
    if !e.Finish? {
      OnlyFinishLeaves(s, e);
    } else if e.id in s.uploads {
      assert UploadOk(tree, s, e.id);
      FinishLeaves(tree, s, e.id);
    }
  }

  lemma PlainName(name: string)
    requires ValidComponent(name) && '/' !in name
    ensures RelativeComponents(name) == Some([name])
  {
    AcceptedPaths(name, [name]);
  }

  /** An empty upload straight into the root, up to its finish. */
  lemma StartAtRoot(s: State, id: nat, name: string)
    requires ValidComponent(name) && '/' !in name && !IsPartName(name) && s.uploads == map[]
    requires ([] in s.tree ==> s.tree[[]].Folder?) && [PartName(name, id)] !in s.tree && Bytes(PartName(name, id)) <= NAME_MAX
    ensures var part := [PartName(name, id)];
            DoStart(s, id, name, 0).s == s.(tree := s.tree[[] := Folder][part := Regular([])],
                                           uploads := map[id := Upload([], name, part, 0, 0)], sent := s.sent[id := []])
  {
    PlainName(name);
    var tree := s.tree[[] := Folder];
    assert [] in s.tree ==> tree == s.tree;
    assert [name][..0] == [];
    assert Resolve(tree, [], [], true) == Resolved(tree, Ok([]));
    assert [] + [PartName(name, id)] == [PartName(name, id)];
  }

  /** A root folder in which every candidate for `name` exists. */
  function Crowded(name: string): Tree {
    map[[] := Folder] + map p | p in Candidates(name) :: Regular([])
  }

  function CandidatePath(name: string, n: nat): Path {
    [Candidate(name, n)]
  }

  function Candidates(name: string): set<Path> {
    set n: nat | n < MAX_CANDIDATES :: CandidatePath(name, n)
  }

  lemma CrowdedTaken(name: string, n: nat)
    requires n < MAX_CANDIDATES
    ensures [Candidate(name, n)] in Crowded(name)
  {
    assert CandidatePath(name, n) in Candidates(name);
  }

  lemma PartIsNoCandidate(name: string, id: nat)
    requires !IsPartName(name)
    ensures [PartName(name, id)] !in Crowded(name)
  {
    forall n: nat | n < MAX_CANDIDATES
      ensures CandidatePath(name, n)[0] != PartName(name, id)
    {
      CandidateIsNoPart(name, n);
    }
  }

  /** The failing instance of `LeftBehindExactly`, for any name: its candidates all exist, and a
      complete upload under it ends with the part file left over. */
  lemma CrowdedFolderKeepsThePart(name: string)
    requires ValidComponent(name) && '/' !in name && !IsPartName(name) && Bytes(PartName(name, 1)) <= NAME_MAX
    ensures var s := Run(Crowded(name), [Start(1, name, 0)]);
            && 1 in s.uploads && s.uploads[1].written == s.uploads[1].expected && NoNameFree(s.tree, s.uploads[1])
            && DoFinish(s, 1).r == Err(Io) && [PartName(name, 1)] in DoFinish(s, 1).s.leftovers && [PartName(name, 1)] in DoFinish(s, 1).s.tree
  {
    var tree := Crowded(name);
    var s0 := Run(tree, []);
    var s := Run(tree, [Start(1, name, 0)]);
    assert [Start(1, name, 0)][..0] == [];
    PartIsNoCandidate(name, 1);
    StartAtRoot(s0, 1, name);
    forall n | 0 <= n < MAX_CANDIDATES
      ensures Taken(s.tree, [], name, n)
    {
      CrowdedTaken(name, n);
      assert [] + [Candidate(name, n)] == [Candidate(name, n)];
    }
  }

  /** Only a finish that reports the path makes a file, and it reports what it made. */
  lemma FinishReports(tree: Tree, events: seq<Event>, id: nat)
    ensures var s := Run(tree, events);
            var out := DoFinish(s, id);
            out.r.Ok? <==> id in s.uploads && s.uploads[id].written == s.uploads[id].expected && !NoNameFree(s.tree, s.uploads[id])
    ensures var s := Run(tree, events);
            var out := DoFinish(s, id);
            out.r.Ok? ==> id in s.sent && out.r.value !in s.tree && out.r.value in out.s.tree && out.s.tree[out.r.value] == Regular(s.sent[id])
  {
    RunKeeps(tree, events);
    var s := Run(tree, events);
    if id in s.uploads {
      assert UploadOk(tree, s, id);
      var u := s.uploads[id];
      var n := FirstUnused(s.tree, u.dir, u.name, 0);
      if n.Some? {
        assert !Taken(s.tree, u.dir, u.name, n.value);
      }
    }
  }

  // ---- reading ----

  datatype Chunk = Chunk(data: seq<byte>, size: nat, eof: bool)

  function ReadChunk(tree: Tree, path: string, offset: nat): Result<Chunk, ShareError> {
    var components := RelativeComponents(path);
    if components.None? || components.value == [] then Err(Rejected)
    else
      var name, folders := Last(components.value), components.value[..|components.value| - 1];
      var dir := Resolve(tree, [], folders, false).r;
      if dir.Err? then Err(dir.error)
      else
        var file := dir.value + [name];
        if file !in tree || !tree[file].Regular? || IsPartName(name) then Err(Rejected)
        else
          var data := tree[file].data;
          if |data| > MAX_FILE_BYTES || offset > |data| then Err(Rejected)
          else
            var end := Min(offset + FILE_CHUNK_BYTES, |data|);
            Ok(Chunk(data[offset..end], |data|, end >= |data|))
  }

  /** The file a path names, if it may be downloaded: reached through folders only, regular,
      no part file and within the size limit. */
  function Readable(tree: Tree, path: string): Option<seq<byte>> {
    var components := RelativeComponents(path);
    if components.None? || components.value == [] || Resolve(tree, [], components.value[..|components.value| - 1], false).r.Err? then None
    else if components.value !in tree || !tree[components.value].Regular? || IsPartName(Last(components.value)) then None
    else if |tree[components.value].data| > MAX_FILE_BYTES then None
    else Some(tree[components.value].data)
  }

  lemma {:induction false} ResolvedPath(tree: Tree, dir: Path, rest: seq<string>)
    ensures Resolve(tree, dir, rest, false).r.Ok? ==> Resolve(tree, dir, rest, false).r.value == dir + rest
    ensures Resolve(tree, dir, rest, false).r.Err? ==> Resolve(tree, dir, rest, false).r.error.Rejected?
    decreases |rest|
  {
    if rest != [] {
      ResolvedPath(tree, dir + [rest[0]], rest[1..]);
      assert dir + [rest[0]] + rest[1..] == dir + rest;
    }
  }

  /** Reading succeeds exactly inside a readable file, and gives that part of it. */
  lemma ReadChunkReads(tree: Tree, path: string, offset: nat)
    ensures var file := Readable(tree, path);
            ReadChunk(tree, path, offset) ==
              if file.None? || offset > |file.value| then Err(Rejected)
              else
                var end := Min(offset + FILE_CHUNK_BYTES, |file.value|);
                Ok(Chunk(file.value[offset..end], |file.value|, end == |file.value|))
  {
    var components := RelativeComponents(path);
    if components.Some? && components.value != [] {
      var folders := components.value[..|components.value| - 1];
      ResolvedPath(tree, [], folders);
      assert folders + [Last(components.value)] == components.value && [] + folders == folders;
    }
  }

  // ---- the folder as the worker holds it ----

  class UploadFolder {
    var tree: Tree
    var uploads: map<nat, Upload>
    ghost var sent: map<nat, seq<byte>>
    ghost var finished: seq<Done>
    ghost var leftovers: set<Path>

    ghost function View(): State
      reads this
    {
      State(tree, uploads, sent, finished, leftovers)
    }

    constructor (tree: Tree)
      ensures View() == Run(tree, [])
    {
      this.tree, uploads, sent, finished, leftovers := tree, map[], map[], [], {};
    }

    method StartUpload(id: nat, path: string, size: nat) returns (r: Result<(), ShareError>)
      modifies this
      ensures Outcome(View(), r) == DoStart(old(View()), id, path, size)
    {
      var components := RelativeComponents(path);
      if components.None? || components.value == [] {
        return Err(Rejected);
      }
      var name, folders := Last(components.value), components.value[..|components.value| - 1];
      if size > MAX_FILE_BYTES || IsPartName(name) || id in uploads || |uploads| >= MAX_OPEN_UPLOADS {
        return Err(Rejected);
      }
      var root := EnsureRoot(tree);
      tree := root.0;
      if root.1.Some? {
        return Err(root.1.value);
      }
      var dirs := ResolveDirs(tree, folders, true);
      tree := dirs.tree;
      if dirs.r.Err? {
        return Err(dirs.r.error);
      }
      var part := dirs.r.value + [PartName(name, id)];
      if part in tree || Bytes(PartName(name, id)) > NAME_MAX {
        return Err(Io);
      }
      tree := tree[part := Regular([])];
      uploads := uploads[id := Upload(dirs.r.value, name, part, size, 0)];
      sent := sent[id := []];
      r := Ok(());
    }

    method AbortUpload(id: nat)
      modifies this
      ensures View() == DoAbort(old(View()), id)
    {
      if id in uploads {
        tree := tree - {uploads[id].part};
        uploads := uploads - {id};
        sent := sent - {id};
      }
    }

    method WriteChunk(ghost tree0: Tree, id: nat, data: seq<byte>) returns (r: Result<(), ShareError>)
      requires id in uploads ==> UploadOk(tree0, View(), id)
      modifies this
      ensures Outcome(View(), r) == DoWrite(old(View()), id, data)
    {
      if id !in uploads {
        return Err(Rejected);
      }
      var u := uploads[id];
      if |data| > FILE_CHUNK_BYTES || u.written + |data| > u.expected {
        AbortUpload(id);
        return Err(Rejected);
      }
      tree := tree[u.part := Regular(tree[u.part].data + data)];
      uploads := uploads[id := u.(written := u.written + |data|)];
      sent := sent[id := sent[id] + data];
      r := Ok(());
    }

    method FinishUpload(ghost tree0: Tree, id: nat) returns (r: Result<Path, ShareError>)
      requires id in uploads ==> UploadOk(tree0, View(), id)
      modifies this
      ensures Outcome(View(), r) == DoFinish(old(View()), id)
    {
      if id !in uploads {
        return Err(Rejected);
      }
      var u := uploads[id];
      ghost var given := sent[id];
      uploads := uploads - {id};
      sent := sent - {id};
      if u.written != u.expected {
        tree := tree - {u.part};
        return Err(Rejected);
      }
      var name := UnusedName(tree, u.dir, u.name);
      ghost var n := FirstUnused(tree, u.dir, u.name, 0);
      if name.None? {
        leftovers := leftovers + {u.part};
        return Err(Io);
      }
      var path := u.dir + [name.value];
      tree := (tree - {u.part})[path := tree[u.part]];
      finished := finished + [Done(path, given, u.expected)];
      r := Ok(path);
    }

    /** Dropping the folder aborts every open upload: no part file of one stays. */
    method Drop(ghost tree0: Tree)
      requires Inv(tree0, View())
      modifies this
      ensures Inv(tree0, View()) && uploads == map[] && finished == old(finished) && leftovers == old(leftovers)
      ensures PartFiles(tree0, tree) == leftovers
    {
      while uploads != map[]
        invariant Inv(tree0, View()) && finished == old(finished) && leftovers == old(leftovers)
        decreases |uploads|
      {
        var id :| id in uploads;
        AbortKeeps(tree0, View(), id);
        assert |uploads| == |uploads.Keys| && (uploads - {id}).Keys == uploads.Keys - {id};
        AbortUpload(id);
        assert |uploads| == |uploads.Keys|;
      }
      forall p | p in tree
        ensures PartOk(tree0, View(), p)
      {
      }
      forall p | p in leftovers
        ensures LeftoverOk(tree0, View(), p)
      {
      }
    }
  }
}
