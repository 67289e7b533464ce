/**
  Downloads from the shared folder (the `FileDownload` loop of
  crates/rivetlink-agent/src/lan.rs) and the way back: what was uploaded can be downloaded
  again under the path that was reported.
 */
module Transfer {
  import opened Common
  import opened Share
  import opened SharedFolder
  import Base64

  datatype Response = FileChunk(size: nat, text: seq<byte>, eof: bool) | FileError

  /** The worker's answer to one read: the chunk travels as base64. */
  function ReadShared(tree: Tree, path: string, offset: nat): Result<(seq<byte>, nat, bool), ShareError> {
    var c := ReadChunk(tree, path, offset);
    if c.Err? then Err(c.error) else Ok((Base64.Encode(c.value.data), c.value.size, c.value.eof))
  }

  function End(data: seq<byte>, offset: nat): nat {
    Min(offset + FILE_CHUNK_BYTES, |data|)
  }

  /** A file from `offset` on, cut into reads. */
  function Pieces(data: seq<byte>, offset: nat): (pieces: seq<seq<byte>>)
    requires offset <= |data|
    ensures pieces != []
    decreases |data| - offset
  {
    var end := End(data, offset);
    [data[offset..end]] + if end == |data| then [] else Pieces(data, end)
  }

  /** The pieces as they travel, the last one marked. */
  function Sent(pieces: seq<seq<byte>>, size: nat): seq<Response> {
    if pieces == [] then [] else [FileChunk(size, Base64.Encode(pieces[0]), |pieces| == 1)] + Sent(pieces[1..], size)
  }

  lemma SharedAnswer(tree: Tree, path: string, offset: nat, file: Option<seq<byte>>)
    requires file == Readable(tree, path)
    ensures file.None? || offset > |file.value| ==> ReadShared(tree, path, offset).Err?
    ensures file.Some? && offset <= |file.value| ==>
              var end := End(file.value, offset);
              ReadShared(tree, path, offset) == Ok((Base64.Encode(file.value[offset..end]), |file.value|, end == |file.value|))
  {
    ReadChunkReads(tree, path, offset);
  }

  lemma LengthWithoutDecoding(data: seq<byte>)
    ensures Base64.DecodedLen(Base64.Encode(data)) == |data|
  {
    Base64.RoundTrip(data);
    Base64.DecodedLenIsExact(Base64.Encode(data));
  }

  /** `base64_decoded_len` on a chunk's text. */
  method Length(text: seq<byte>, ghost data: seq<byte>) returns (n: nat)
    requires text == Base64.Encode(data)
    ensures n == |data|
  {
    LengthWithoutDecoding(data);
    n := Base64.DecodedLen(text);
  }

  lemma SentStep(data: seq<byte>, offset: nat)
    requires offset <= |data|
    ensures var end := End(data, offset);
            Sent(Pieces(data, offset), |data|) == [FileChunk(|data|, Base64.Encode(data[offset..end]), end == |data|)]
                                                 + if end == |data| then [] else Sent(Pieces(data, end), |data|)
  {
    var end := End(data, offset);
    if end < |data| {
      assert Pieces(data, offset)[1..] == Pieces(data, end);
    }
  }

  /** One request to the worker. `file` is what the path names, if it may be read. */
  method Ask(tree: Tree, path: string, offset: nat, ghost file: Option<seq<byte>>) returns (answer: Option<(seq<byte>, nat, bool)>)
    requires file == Readable(tree, path) && (file.Some? ==> offset <= |file.value|)
    ensures answer.Some? <==> file.Some?
    ensures file.Some? ==> answer.value.0 == Base64.Encode(file.value[offset..End(file.value, offset)])
                           && answer.value.1 == |file.value| && (answer.value.2 <==> End(file.value, offset) == |file.value|)
  {
    SharedAnswer(tree, path, offset, file);
    var r := ReadShared(tree, path, offset);
    answer := if r.Ok? then Some(r.value) else None;
  }

  /** The response sent for a read at `offset`. */
  function ChunkAt(file: seq<byte>, offset: nat): Response
    requires offset <= |file|
  {
    FileChunk(|file|, Base64.Encode(file[offset..End(file, offset)]), End(file, offset) == |file|)
  }

  /** One turn of the loop. It never decodes: it advances by the length that the base64 text
      stands for. */
  method Turn(tree: Tree, path: string, offset: nat, ghost file: Option<seq<byte>>) returns (chunk: Option<Response>, next: nat)
    requires file == Readable(tree, path) && (file.Some? ==> offset <= |file.value|)
    ensures chunk == if file.Some? then Some(ChunkAt(file.value, offset)) else None
    ensures file.Some? ==> next == End(file.value, offset)
  {
    var answer := Ask(tree, path, offset, file);
    if answer.None? {
      return None, offset;
    }
    var (text, size, eof) := answer.value;
    var read := Length(text, file.value[offset..End(file.value, offset)]);
    chunk, next := Some(FileChunk(size, text, eof || read == 0)), offset + read;
  }

  // ---- a file that can be read stays as it is ----

  /** Folders, and whatever is no part file, are left alone. */
  predicate Settled(tree: Tree, tree': Tree) {
    forall p | p in tree && (tree[p].Folder? || !PartPath(p)) :: p in tree' && tree'[p] == tree[p]
  }

  lemma StartSettles(s: State, id: nat, path: string, size: nat)
    ensures Settled(s.tree, DoStart(s, id, path, size).s.tree)
  {
    var components := RelativeComponents(path);
    if components.Some? && components.value != [] {
      var (tree, failed) := EnsureRoot(s.tree);
      EnsureRootGrows(s.tree);
      if failed.None? {
        ResolveStaysInside(tree, [], components.value[..|components.value| - 1], true);
      }
    }
  }

  lemma StepSettles(tree0: Tree, s: State, e: Event)
    requires Inv(tree0, s)
    ensures Settled(s.tree, Apply(s, e).tree)
  {
    if e.Start? {
      StartSettles(s, e.id, e.path, e.size);
    } else if e.id in s.uploads {
      assert UploadOk(tree0, s, e.id);
    }
  }

  lemma {:induction false} RunSettles(tree0: Tree, events: seq<Event>, more: seq<Event>)
    ensures Settled(Run(tree0, events).tree, Run(tree0, events + more).tree)
    decreases |more|
  {
    if more == [] {
      assert events + more == events;
    } else {
      var front := more[..|more| - 1];
      RunSettles(tree0, events, front);
      RunKeeps(tree0, events + front);
      StepSettles(tree0, Run(tree0, events + front), Last(more));
      assert (events + more)[..|events + more| - 1] == events + front && Last(events + more) == Last(more);
    }
  }

  lemma {:induction false} ResolveSettled(tree: Tree, tree': Tree, dir: Path, rest: seq<string>)
    requires Settled(tree, tree') && Resolve(tree, dir, rest, false).r.Ok?
    ensures Resolve(tree', dir, rest, false).r == Resolve(tree, dir, rest, false).r
    decreases |rest|
  {
    if rest != [] {
      ResolveSettled(tree, tree', dir + [rest[0]], rest[1..]);
    }
  }

  /** A path that can be downloaded, whether its file was there before or was uploaded, gives
      the same bytes after anything that uploads do next. */
  lemma ReadableStays(tree0: Tree, events: seq<Event>, more: seq<Event>, path: string)
    requires Readable(Run(tree0, events).tree, path).Some?
    ensures Readable(Run(tree0, events + more).tree, path) == Readable(Run(tree0, events).tree, path)
  {
    var tree, tree', components := Run(tree0, events).tree, Run(tree0, events + more).tree, RelativeComponents(path).value;
    RunSettles(tree0, events, more);
    ResolveSettled(tree, tree', [], components[..|components| - 1]);
    assert !PartPath(components);
  }

  /** `sent` are the responses of `file` up to `offset`. */
  ghost predicate SentTo(sent: seq<Response>, file: Option<seq<byte>>, offset: nat) {
    if file.None? then sent == []
    else offset <= |file.value| && sent + Sent(Pieces(file.value, offset), |file.value|) == Sent(Pieces(file.value, 0), |file.value|)
  }

  lemma SentMore(sent: seq<Response>, file: seq<byte>, offset: nat)
    requires SentTo(sent, Some(file), offset)
    ensures var (chunk, end) := (ChunkAt(file, offset), End(file, offset));
            && (chunk.eof ==> sent + [chunk] == Sent(Pieces(file, 0), |file|))
            && (!chunk.eof ==> SentTo(sent + [chunk], Some(file), end) && offset < end)
  {
    SentStep(file, offset);
    var chunk, end := ChunkAt(file, offset), End(file, offset);
    if !chunk.eof {
      Associates(sent, [chunk], Sent(Pieces(file, end), |file|));
    }
  }

  /** Uploads go on beside a download, `between(n)` from its read `n` to the next. It sends the
      file as it was at the first read. */
  method Download(tree0: Tree, events: seq<Event>, between: nat -> seq<Event>, path: string) returns (sent: seq<Response>)
    ensures var file := Readable(Run(tree0, events).tree, path);
            sent == if file.None? then [FileError] else Sent(Pieces(file.value, 0), |file.value|)
  {
    ghost var file := Readable(Run(tree0, events).tree, path);
    var offset: nat, happened := 0, events;
    sent := [];
    while true
      invariant SentTo(sent, file, offset)
      invariant Readable(Run(tree0, happened).tree, path) == file
      decreases if file.Some? then |file.value| - offset else 0
    {
      var chunk, next := Turn(Run(tree0, happened).tree, path, offset, file);
      if chunk.None? {
        return sent + [FileError];
      }
      SentMore(sent, file.value, offset);
      sent := sent + [chunk.value];
      if chunk.value.eof {
        return;
      }
      ReadableStays(tree0, happened, between(|sent|), path);
      offset, happened := next, happened + between(|sent|);
    }
  }

  /** What the client puts together. */
  function Received(sent: seq<Response>): Option<seq<byte>> {
    if sent == [] then Some([])
    else if sent[0].FileError? || Base64.Decode(sent[0].text).None? || Received(sent[1..]).None? then None
    else Some(Base64.Decode(sent[0].text).value + Received(sent[1..]).value)
  }

  /** One end mark, on the last chunk; every chunk states the file's size. */
  predicate WellEnded(sent: seq<Response>, size: nat) {
    && sent != []
    && forall i | 0 <= i < |sent| :: sent[i].FileChunk? && sent[i].size == size && (sent[i].eof <==> i == |sent| - 1)
  }

  function Joined(pieces: seq<seq<byte>>): seq<byte> {
    if pieces == [] then [] else pieces[0] + Joined(pieces[1..])
  }

  lemma {:induction false} PiecesAreTheFile(data: seq<byte>, offset: nat)
    requires offset <= |data|
    ensures Joined(Pieces(data, offset)) == data[offset..]
    decreases |data| - offset
  {
    var end := End(data, offset);
    if end == |data| {
      var p := Pieces(data, offset);
      assert data[offset..end] == data[offset..];
      assert |p| == 1 && p[0] == data[offset..] && p[1..] == [];
      assert Joined(p[1..]) == [];
    } else {
      PiecesAreTheFile(data, end);
      assert Pieces(data, offset)[1..] == Pieces(data, end);
      assert data[offset..end] + data[end..] == data[offset..];
    }
  }

  lemma ReceivedCons(first: Response, rest: seq<Response>, head: seq<byte>)
    requires first.FileChunk? && Base64.Decode(first.text) == Some(head) && Received(rest).Some?
    ensures Received([first] + rest) == Some(head + Received(rest).value)
  {
    assert ([first] + rest)[1..] == rest;
  }

  lemma {:induction false} SentIsReceived(pieces: seq<seq<byte>>, size: nat)
    ensures Received(Sent(pieces, size)) == Some(Joined(pieces))
  {
    if pieces != [] {
      SentIsReceived(pieces[1..], size);
      Base64.RoundTrip(pieces[0]);
      ReceivedCons(FileChunk(size, Base64.Encode(pieces[0]), |pieces| == 1), Sent(pieces[1..], size), pieces[0]);
    }
  }

  lemma {:induction false} SentIsWellEnded(pieces: seq<seq<byte>>, size: nat)
    requires pieces != []
    ensures |Sent(pieces, size)| == |pieces| && WellEnded(Sent(pieces, size), size)
  {
    if |pieces| > 1 {
      SentIsWellEnded(pieces[1..], size);
      var sent, rest := Sent(pieces, size), Sent(pieces[1..], size);
      assert forall i | 0 < i < |sent| :: sent[i] == rest[i - 1];
    } else {
      assert Sent(pieces[1..], size) == [];
    }
  }

  /** Download round trip: the chunks of any file put together are the file, and exactly the
      last one says so. */
  lemma DownloadIsTheFile(data: seq<byte>)
    ensures Received(Sent(Pieces(data, 0), |data|)) == Some(data) && WellEnded(Sent(Pieces(data, 0), |data|), |data|)
  {
    PiecesAreTheFile(data, 0);
    SentIsReceived(Pieces(data, 0), |data|);
    SentIsWellEnded(Pieces(data, 0), |data|);
    assert data[0..] == data;
  }

  // ---- uploaded files can be downloaded ----

  /** Every prefix of the path is a folder. */
  predicate Reached(tree: Tree, dir: Path) {
    forall k | 0 <= k <= |dir| :: dir[..k] in tree && tree[dir[..k]].Folder?
  }

  lemma {:induction false} ResolveReached(tree: Tree, dir: Path, k: nat, create: bool)
    requires Reached(tree, dir) && k <= |dir|
    ensures Resolve(tree, dir[..k], dir[k..], create) == Resolved(tree, Ok(dir))
    decreases |dir| - k
  {
    if k == |dir| {
      assert dir[..k] == dir;
    } else {
      assert dir[..k] + [dir[k..][0]] == dir[..k + 1] && dir[k..][1..] == dir[k + 1..];
      ResolveReached(tree, dir, k + 1, create);
    }
  }

  lemma ReachedIsResolved(tree: Tree, dir: Path, create: bool)
    requires Reached(tree, dir)
    ensures Resolve(tree, [], dir, create) == Resolved(tree, Ok(dir))
  {
    ResolveReached(tree, dir, 0, create);
    assert dir[..0] == [] && dir[0..] == dir;
  }

  /** A valid name but for its length. */
  predicate Sound(c: string) {
    c != "" && c != "." && c != ".." && '/' !in c && forall x | x in c :: !Control(x) && x != '\\' && x != ':'
  }

  lemma CandidateIsSound(name: string, n: nat)
    requires Sound(name)
    ensures Sound(Candidate(name, n))
  {
    if n > 0 {
      DecimalIsDigits(n);
      var c := Candidate(name, n);
      assert c[LastDot(name)..][0] == ' ' || c[|name|] == ' ';
      assert forall x | x in c :: x in name || x in " (" || x in Decimal(n) || x in ").";
      assert |c| >= 3;
    }
  }

  predicate GoodDir(tree: Tree, dir: Path) {
    Reached(tree, dir) && |dir| < MAX_PATH_DEPTH && forall c | c in dir :: Sound(c) && Bytes(c) <= MAX_COMPONENT_BYTES
  }

  predicate UploadGood(s: State, u: Upload) {
    GoodDir(s.tree, u.dir) && Sound(u.name) && u.expected <= MAX_FILE_BYTES
  }

  predicate DoneGood(s: State, f: Done) {
    f.path != [] && GoodDir(s.tree, f.path[..|f.path| - 1]) && Sound(Last(f.path)) && f.size <= MAX_FILE_BYTES
  }

  predicate Good(s: State) {
    && (forall id | id in s.uploads :: UploadGood(s, s.uploads[id]))
    && (forall k | 0 <= k < |s.finished| :: DoneGood(s, s.finished[k]))
  }

  /** Folders stay. */
  predicate FoldersStay(tree: Tree, tree': Tree) {
    forall p | p in tree && tree[p].Folder? :: p in tree' && tree'[p].Folder?
  }

  lemma GoodStays(s: State, s': State)
    requires Good(s) && FoldersStay(s.tree, s'.tree)
    requires forall id | id in s'.uploads :: UploadGood(s', s'.uploads[id]) || (id in s.uploads && s'.uploads[id].(written := 0) == s.uploads[id].(written := 0))
    requires forall k | 0 <= k < |s'.finished| :: DoneGood(s', s'.finished[k]) || (k < |s.finished| && s'.finished[k] == s.finished[k])
    ensures Good(s')
  {
    forall id | id in s'.uploads
      ensures UploadGood(s', s'.uploads[id])
    {
      if id in s.uploads && s'.uploads[id].(written := 0) == s.uploads[id].(written := 0) {
        assert UploadGood(s, s.uploads[id]);
      }
    }
    forall k | 0 <= k < |s'.finished|
      ensures DoneGood(s', s'.finished[k])
    {
      if k < |s.finished| && s'.finished[k] == s.finished[k] {
        assert DoneGood(s, s.finished[k]);
      }
    }
  }

  lemma AcceptedNames(path: string, components: seq<string>)
    requires RelativeComponents(path) == Some(components)
    ensures components != [] && Sound(Last(components)) && |components| <= MAX_PATH_DEPTH
    ensures forall c | c in components[..|components| - 1] :: Sound(c) && Bytes(c) <= MAX_COMPONENT_BYTES
  {
    AcceptedPaths(path, components);
    assert Last(components) in components;
    SoundComponent(Last(components));
    forall c | c in components[..|components| - 1]
      ensures Sound(c) && Bytes(c) <= MAX_COMPONENT_BYTES
    {
      assert c in components;
      SoundComponent(c);
    }
  }

  lemma SoundComponent(c: string)
    requires ValidComponent(c) && '/' !in c
    ensures Sound(c) && Bytes(c) <= MAX_COMPONENT_BYTES
  {
  }

  /** Nothing new, or one upload of this name into `folders`. */
  predicate StartsOne(s: State, s': State, id: nat, name: string, folders: Path, size: nat) {
    && FoldersStay(s.tree, s'.tree) && s'.finished == s.finished
    && (s'.uploads == s.uploads
        || (&& id in s'.uploads && s'.uploads == s.uploads[id := s'.uploads[id]] && s'.uploads[id].name == name
            && s'.uploads[id].dir == folders && s'.uploads[id].expected == size <= MAX_FILE_BYTES && Reached(s'.tree, folders)))
  }

  lemma StartInEffect(s: State, dirs: Resolved, id: nat, name: string, folders: Path, size: nat)
    requires FoldersStay(s.tree, dirs.tree) && size <= MAX_FILE_BYTES && (dirs.r.Ok? ==> dirs.r.value == folders && Reached(dirs.tree, folders))
    ensures StartsOne(s, StartIn(s, dirs, id, name, size).s, id, name, folders, size)
  {
  }

  /** What a start does to the tree and the uploads. */
  lemma StartEffect(s: State, id: nat, path: string, size: nat, components: seq<string>)
    requires RelativeComponents(path) == Some(components) && components != []
    ensures StartsOne(s, DoStart(s, id, path, size).s, id, Last(components), components[..|components| - 1], size)
  {
    var folders := components[..|components| - 1];
    var (tree, failed) := EnsureRoot(s.tree);
    EnsureRootGrows(s.tree);
    if failed.None? && size <= MAX_FILE_BYTES {
      FoldersReached(tree, folders);
      StartInEffect(s, Resolve(tree, [], folders, true), id, Last(components), folders, size);
    }
  }

  lemma FoldersReached(tree: Tree, folders: Path)
    requires [] in tree && tree[[]].Folder?
    ensures var dirs := Resolve(tree, [], folders, true);
            FoldersStay(tree, dirs.tree) && (dirs.r.Ok? ==> dirs.r.value == folders && Reached(dirs.tree, folders))
  {
    ResolveStaysInside(tree, [], folders, true);
    assert [] + folders == folders;
  }

  lemma StartGood(s: State, id: nat, path: string, size: nat)
    requires Good(s)
    ensures Good(DoStart(s, id, path, size).s)
  {
    var components := RelativeComponents(path);
    if components.Some? && components.value != [] {
      AcceptedNames(path, components.value);
      StartEffect(s, id, path, size, components.value);
      StartedGood(s, DoStart(s, id, path, size).s, id, Last(components.value), components.value[..|components.value| - 1], size);
    }
  }

  lemma StartedGood(s: State, s': State, id: nat, name: string, folders: Path, size: nat)
    requires Good(s) && FoldersStay(s.tree, s'.tree) && s'.finished == s.finished
    requires s'.uploads == s.uploads
             || (&& id in s'.uploads && s'.uploads == s.uploads[id := s'.uploads[id]] && s'.uploads[id].name == name && s'.uploads[id].dir == folders
                 && s'.uploads[id].expected == size <= MAX_FILE_BYTES && Reached(s'.tree, folders) && |folders| < MAX_PATH_DEPTH)
    requires Sound(name) && forall c | c in folders :: Sound(c) && Bytes(c) <= MAX_COMPONENT_BYTES
    ensures Good(s')
  {
    GoodStays(s, s');
  }

  lemma CloseGood(tree0: Tree, s: State, id: nat)
    requires Good(s) && id in s.uploads && UploadOk(tree0, s, id)
    ensures Good(DoAbort(s, id))
  {
    GoodStays(s, DoAbort(s, id));
  }

  lemma WriteGood(tree0: Tree, s: State, id: nat, data: seq<byte>)
    requires Good(s) && Inv(tree0, s)
    ensures Good(DoWrite(s, id, data).s)
  {
    if id in s.uploads {
      assert UploadOk(tree0, s, id);
      CloseGood(tree0, s, id);
      GoodStays(s, DoWrite(s, id, data).s);
    }
  }

  lemma FinishGood(tree0: Tree, s: State, id: nat)
    requires Good(s) && Inv(tree0, s)
    ensures Good(DoFinish(s, id).s)
  {
    if id in s.uploads {
      var u, s' := s.uploads[id], DoFinish(s, id).s;
      assert UploadOk(tree0, s, id) && UploadGood(s, u);
      var n := FirstUnused(s.tree, u.dir, u.name, 0);
      if u.written == u.expected && n.Some? {
        var path := u.dir + [Candidate(u.name, n.value)];
        CandidateIsSound(u.name, n.value);
        assert path[..|path| - 1] == u.dir;
        PlacedGood(tree0, s, id, path);
        GoodStays(s, s');
      } else {
        GoodStays(s, s');
      }
    }
  }

  lemma PlacedGood(tree0: Tree, s: State, id: nat, path: Path)
    requires id in s.uploads && UploadOk(tree0, s, id) && UploadGood(s, s.uploads[id])
    requires path != [] && path[..|path| - 1] == s.uploads[id].dir && Sound(Last(path)) && path !in s.tree
    ensures FoldersStay(s.tree, Placed(s, id, path).tree)
    ensures DoneGood(Placed(s, id, path), Done(path, s.sent[id], s.uploads[id].expected))
  {
  }

  lemma {:induction false} RunGood(tree: Tree, events: seq<Event>)
    ensures Good(Run(tree, events))
    decreases |events|
  {
    if events != [] {
      var s := Run(tree, events[..|events| - 1]);
      RunGood(tree, events[..|events| - 1]);
      RunKeeps(tree, events[..|events| - 1]);
      match Last(events)
      case Start(id, path, size) => StartGood(s, id, path, size);
      case Write(id, data) => WriteGood(tree, s, id, data);
      case Finish(id) => FinishGood(tree, s, id);
      case Abort(id) =>
        if id in s.uploads {
          assert UploadOk(tree, s, id);
          CloseGood(tree, s, id);
        }
    }
  }

  /** The only limit that numbering can break. */
  predicate WithinLimit(path: Path) {
    Bytes(Join(path)) <= MAX_PATH_BYTES
  }

  lemma ReportedPathIsAccepted(s: State, f: Done)
    requires DoneGood(s, f) && Bytes(Last(f.path)) <= NAME_MAX
    ensures RelativeComponents(Join(f.path)) == if WithinLimit(f.path) then Some(f.path) else None
  {
    assert f.path == f.path[..|f.path| - 1] + [Last(f.path)];
    assert Last(f.path) in f.path;
    AcceptedPaths(Join(f.path), f.path);
    if RelativeComponents(Join(f.path)).Some? {
      JoinOfSplit(Join(f.path));
      SplitOfJoin(f.path);
    }
  }

  lemma FinishedIsReadable(tree: Tree, s: State, k: nat)
    requires k < |s.finished| && DoneOk(tree, s, k) && DoneGood(s, s.finished[k])
    ensures var f := s.finished[k];
            Readable(s.tree, Join(f.path)) == if WithinLimit(f.path) then Some(f.data) else None
  {
    var f := s.finished[k];
    ReportedPathIsAccepted(s, f);
    ReachedIsResolved(s.tree, f.path[..|f.path| - 1], false);
  }

  /** Round trip over runs: at any later time a finished upload can be read, under the path it
      was reported with, exactly when that path is still within the length limit (numbering a
      duplicate may push it over), and then downloads as exactly the bytes that were sent. */
  lemma UploadedFileDownloads(tree: Tree, events: seq<Event>, k: nat)
    requires k < |Run(tree, events).finished|
    ensures var s := Run(tree, events);
            var f := s.finished[k];
            && Readable(s.tree, Join(f.path)) == (if WithinLimit(f.path) then Some(f.data) else None)
            && Received(Sent(Pieces(f.data, 0), |f.data|)) == Some(f.data)
  {
    var s := Run(tree, events);
    RunGood(tree, events);
    RunKeeps(tree, events);
    assert DoneOk(tree, s, k) && DoneGood(s, s.finished[k]);
    FinishedIsReadable(tree, s, k);
    DownloadIsTheFile(s.finished[k].data);
  }

  /** What a download of that path sends, whatever is uploaded meanwhile: the file, or one error
      and nothing else. */
  method DownloadReported(tree0: Tree, events: seq<Event>, between: nat -> seq<Event>, k: nat) returns (sent: seq<Response>)
    requires k < |Run(tree0, events).finished|
    ensures var f := Run(tree0, events).finished[k];
            if WithinLimit(f.path) then Received(sent) == Some(f.data) && WellEnded(sent, |f.data|) else sent == [FileError]
  {
    var f := Run(tree0, events).finished[k];
    UploadedFileDownloads(tree0, events, k);
    DownloadIsTheFile(f.data);
    sent := Download(tree0, events, between, Join(f.path));
  }

  // ---- a reported path that cannot be used ----

  function Prefix(path: Path, k: nat): Path {
    if k <= |path| then path[..k] else path
  }

  function Prefixes(path: Path): set<Path> {
    set k: nat | k < |path| :: Prefix(path, k)
  }

  /** A tree that holds one file and the folders on its way. */
  function Holding(path: Path): Tree {
    (map p | p in Prefixes(path) :: Folder)[path := Regular([])]
  }

  lemma HoldingHolds(dir: Path, name: string, other: string)
    requires name != other
    ensures Reached(Holding(dir + [name]), dir) && dir + [name] in Holding(dir + [name]) && dir + [other] !in Holding(dir + [name])
  {
    var path := dir + [name];
    forall k | 0 <= k <= |dir|
      ensures dir[..k] in Holding(path) && Holding(path)[dir[..k]].Folder?
    {
      assert dir[..k] == Prefix(path, k) && Prefix(path, k) in Prefixes(path) && |dir[..k]| < |path|;
    }
    forall p | p in Holding(path)
      ensures p == path || |p| < |path|
    {
      if p != path {
        var k: nat :| k < |path| && Prefix(path, k) == p;
      }
    }
    assert (dir + [other])[|dir|] != path[|dir|];
  }

  /** A start in a folder that exists, of an empty upload. */
  lemma StartInFolder(s: State, id: nat, path: string, dir: Path, name: string)
    requires RelativeComponents(path) == Some(dir + [name]) && !IsPartName(name) && Bytes(PartName(name, id)) <= NAME_MAX
    requires s.uploads == map[] && Reached(s.tree, dir) && dir + [PartName(name, id)] !in s.tree
    ensures var part := dir + [PartName(name, id)];
            DoStart(s, id, path, 0).s == s.(tree := s.tree[part := Regular([])], uploads := map[id := Upload(dir, name, part, 0, 0)], sent := s.sent[id := []])
  {
    assert dir[..0] == [] && (dir + [name])[..|dir|] == dir;
    ReachedIsResolved(s.tree, dir, true);
  }

  /** A second empty upload under a name whose file exists is placed under the first number. */
  lemma FinishDuplicate(s: State, id: nat, dir: Path, name: string)
    requires id in s.uploads && id in s.sent && s.uploads[id].part in s.tree
    requires s.uploads[id].dir == dir && s.uploads[id].name == name && s.uploads[id].written == s.uploads[id].expected
    requires dir + [name] in s.tree && dir + [Candidate(name, 1)] !in s.tree
    ensures DoFinish(s, id).s.finished == s.finished + [Done(dir + [Candidate(name, 1)], s.sent[id], s.uploads[id].expected)]
  {
    assert Candidate(name, 0) == name;
    assert Taken(s.tree, dir, name, 0) && !Taken(s.tree, dir, name, 1);
    var n := FirstUnused(s.tree, dir, name, 0);
    assert n.Some? && n.value == 1;
  }

  function Again(path: string): seq<Event> {
    [Start(1, path, 0), Finish(1)]
  }

  lemma DuplicateRun(path: string, dir: Path, name: string)
    requires RelativeComponents(path) == Some(dir + [name]) && !IsPartName(name) && Bytes(PartName(name, 1)) <= NAME_MAX
    ensures Run(Holding(dir + [name]), Again(path)).finished == [Done(dir + [Candidate(name, 1)], [], 0)]
  {
    var tree, part, numbered := Holding(dir + [name]), PartName(name, 1), Candidate(name, 1);
    CandidateIsNoPart(name, 1);
    CandidateBytes(name, 1);
    HoldingHolds(dir, name, part);
    HoldingHolds(dir, name, numbered);
    assert (dir + [part])[|dir|] != (dir + [numbered])[|dir|] && (dir + [part])[|dir|] != (dir + [name])[|dir|];
    var s := Run(tree, []);
    StartInFolder(s, 1, path, dir, name);
    assert Again(path)[..1] == [Start(1, path, 0)] && [Start(1, path, 0)][..0] == [];
    FinishDuplicate(Run(tree, [Start(1, path, 0)]), 1, dir, name);
  }

  lemma {:induction false} JoinBytes(dir: Path, a: string, b: string)
    ensures Bytes(Join(dir + [a])) + Bytes(b) == Bytes(Join(dir + [b])) + Bytes(a)
  {
    if dir == [] {
      assert dir + [a] == [a] && dir + [b] == [b];
    } else {
      JoinBytes(dir[1..], a, b);
      JoinStep(dir, a);
      JoinStep(dir, b);
    }
  }

  lemma JoinStep(dir: Path, a: string)
    requires dir != []
    ensures Bytes(Join(dir + [a])) == Bytes(dir[0]) + 1 + Bytes(Join(dir[1..] + [a]))
  {
    var path := dir + [a];
    assert path[1..] == dir[1..] + [a];
    AsciiBytes("/");
    BytesOfConcat(dir[0] + "/", Join(path[1..]));
    BytesOfConcat(dir[0], "/");
  }

  lemma NumberedPathBytes(path: string, dir: Path, name: string)
    requires RelativeComponents(path) == Some(dir + [name])
    ensures Bytes(Join(dir + [Candidate(name, 1)])) == Bytes(path) + 4
  {
    AcceptedPaths(path, dir + [name]);
    JoinBytes(dir, name, Candidate(name, 1));
    CandidateBytes(name, 1);
    assert Decimal(1) == "1";
  }

  /** An accepted path whose file exists is uploaded again: the second file can be read under
      the path reported for it exactly when four more bytes still fit. */
  lemma SecondUploadIsReadExactly(path: string, dir: Path, name: string)
    requires RelativeComponents(path) == Some(dir + [name]) && !IsPartName(name) && Bytes(PartName(name, 1)) <= NAME_MAX
    ensures var s := Run(Holding(dir + [name]), Again(path));
            && |s.finished| == 1 && s.finished[0].data == []
            && Readable(s.tree, Join(s.finished[0].path)) == if Bytes(path) + 4 <= MAX_PATH_BYTES then Some([]) else None
  {
    DuplicateRun(path, dir, name);
    UploadedFileDownloads(Holding(dir + [name]), Again(path), 0);
    NumberedPathBytes(path, dir, name);
  }

  function Letters(n: nat): (s: string)
    ensures |s| == n && forall c | c in s :: c == 'a'
  {
    if n == 0 then "" else Letters(n - 1) + "a"
  }

  function Nested(n: nat): (dir: Path)
    ensures |dir| == n && forall c | c in dir :: c == Letters(199)
  {
    if n == 0 then [] else [Letters(199)] + Nested(n - 1)
  }

  lemma LettersAreValid(n: nat)
    requires 0 < n <= MAX_COMPONENT_BYTES
    ensures Bytes(Letters(n)) == n && ValidComponent(Letters(n)) && '/' !in Letters(n) && !IsPartName(Letters(n))
  {
    var name := Letters(n);
    AsciiBytes(name);
    assert Last(name) in name && name[0] in name && Last(PART_SUFFIX) == 't';
  }

  lemma {:induction false} NestedBytes(n: nat, name: string)
    ensures Bytes(Join(Nested(n) + [name])) == 200 * n + Bytes(name)
  {
    if n == 0 {
      assert Nested(0) + [name] == [name];
    } else {
      NestedBytes(n - 1, name);
      JoinStep(Nested(n), name);
      LettersAreValid(199);
      assert Nested(n)[1..] == Nested(n - 1);
    }
  }

  /** The failing instance of `UploadedFileDownloads`: a path of 1024 bytes, five folders and a
      name of 24 letters. It is accepted and its part file can be made, and the second upload
      under it is reported with a path that cannot be read. */
  lemma NumberedFileCannotBeRead(dir: Path, name: string, path: string)
    requires dir == Nested(5) && name == Letters(24) && path == Join(dir + [name])
    ensures RelativeComponents(path) == Some(dir + [name]) && Bytes(path) == MAX_PATH_BYTES
    ensures var s := Run(Holding(dir + [name]), Again(path));
            |s.finished| == 1 && !WithinLimit(s.finished[0].path) && Readable(s.tree, Join(s.finished[0].path)).None?
  {
    LettersAreValid(199);
    LettersAreValid(24);
    NestedBytes(5, name);
    AcceptedPaths(path, dir + [name]);
    PartNameBytes(name, 1);
    SecondUploadIsReadExactly(path, dir, name);
    UploadedFileDownloads(Holding(dir + [name]), Again(path), 0);
  }
}
