/** The content-addressed artifact store: uploads, captures, finalization and download, each a short
    series of file effects that a crash may cut. */
module Artifacts {
  import opened Base
  import opened HostTree

  type ArtifactId = string

  datatype Status = Uploading | Finalized | Aborted

  datatype Record = Record(
    name: string, status: Status, sha256: Option<Digest>, size: nat,
    expectedSize: Option<nat>, expectedSha256: Option<Digest>)

  /** The manifest, the upload files and the object files. */
  datatype Store = Store(
    manifest: map<ArtifactId, Record>, uploads: map<ArtifactId, Bytes>, objects: map<Digest, Bytes>)

  /** The store and the file effects left before the process dies. */
  datatype World = World(store: Store, fuel: nat)

  datatype Error =
    | InvalidRequest | NotFound | Immutable | OffsetMismatch | SizeMismatch | DigestMismatch | TooLarge
    | SourceMissing | SourceChanged

  datatype Ending = Done(record: Record) | Refused(error: Error) | Crashed

  const COPY_BUFFER: nat := 64 * 1024

  // ---------------------------------------------------------------- file effects

  /** One effect: it needs fuel and yields the next store. */
  function Effect(w: World, next: Store): Option<World> {
    if w.fuel == 0 then None else Some(World(next, w.fuel - 1))
  }

  function SaveRecord(s: Store, id: ArtifactId, r: Record): Store {
    s.(manifest := s.manifest[id := r])
  }

  /** Writing `data` at `offset`; a hole before it reads as zeros. */
  function WriteAt(file: Bytes, offset: nat, data: Bytes): Bytes {
    var front := if offset <= |file| then file[..offset] else file + seq(offset - |file|, _ => 0);
    if offset + |data| <= |file| then front + data + file[offset + |data|..] else front + data
  }

  // ---------------------------------------------------------------- capturing a file

  /** Copies the source into the object file buffer by buffer. */
  function CopyOn(w: World, d: Digest, bytes: Bytes, position: nat): Option<World>
    requires position <= |bytes|
    decreases |bytes| - position
  {
    if position == |bytes| then Some(w)
    else
      var end := if position + COPY_BUFFER <= |bytes| then position + COPY_BUFFER else |bytes|;
      match Effect(w, w.store.(objects := w.store.objects[d := bytes[..end]]))
      case None => None
      case Some(next) => CopyOn(next, d, bytes, end)
  }

  /** What a copy that dies leaves: the buffers written so far. */
  function CutCopy(w: World, d: Digest, bytes: Bytes, position: nat): World
    requires position <= |bytes|
    decreases |bytes| - position
  {
    if position == |bytes| || w.fuel == 0 then w
    else
      var end := if position + COPY_BUFFER <= |bytes| then position + COPY_BUFFER else |bytes|;
      CutCopy(World(w.store.(objects := w.store.objects[d := bytes[..end]]), w.fuel - 1), d, bytes, end)
  }

  /** An object already at the digest's path is taken as it is. */
  function PersistObject(w: World, d: Digest, bytes: Bytes): (World, bool) {
    if d in w.store.objects then (w, true)
    else
      match Effect(w, w.store.(objects := w.store.objects[d := []]))
      case None => (w, false)
      case Some(begun) =>
        match CopyOn(begun, d, bytes, 0)
        case None => (CutCopy(begun, d, bytes, 0), false)
        case Some(next) => (next, true)
  }

  function CreateFromFile(w: World, id: ArtifactId, name: string, source: Option<Bytes>, max: nat): (World, Ending) {
    if name == "" then (w, Refused(InvalidRequest))
    else if source.None? then (w, Refused(SourceMissing))
    else if |source.value| > max then (w, Refused(TooLarge))
    else
      var d := Sha256(source.value);
      var (persisted, ok) := PersistObject(w, d, source.value);
      if !ok then (persisted, Crashed)
      else Save(persisted, id, Record(name, Finalized, Some(d), |source.value|, None, None))
  }

  function Save(w: World, id: ArtifactId, r: Record): (World, Ending) {
    match Effect(w, SaveRecord(w.store, id, r))
    case None => (w, Crashed)
    case Some(next) => (next, Done(r))
  }

  // ---------------------------------------------------------------- uploads

  function BeginUpload(w: World, id: ArtifactId, name: string, size: Option<nat>, sha: Option<Digest>): (World, Ending) {
    if name == "" then (w, Refused(InvalidRequest))
    else
      match Effect(w, w.store.(uploads := w.store.uploads[id := []]))
      case None => (w, Crashed)
      case Some(next) => Save(next, id, Record(name, Uploading, None, 0, size, sha))
  }

  function UploadChunk(w: World, id: ArtifactId, offset: nat, data: Bytes): (World, Ending) {
    var s := w.store;
    if id !in s.manifest then (w, Refused(NotFound))
    else
      var r := s.manifest[id];
      if r.status != Uploading then (w, Refused(Immutable))
      else if offset != r.size then (w, Refused(OffsetMismatch))
      else if id !in s.uploads then (w, Refused(SourceMissing))
      else
        match Effect(w, s.(uploads := s.uploads[id := WriteAt(s.uploads[id], offset, data)]))
        case None => (w, Crashed)
        case Some(next) => Save(next, id, r.(size := r.size + |data|))
  }

  function CheckUpload(r: Record, bytes: Bytes, size: nat, sha: Digest, max: nat): Result<(), Error> {
    if |bytes| > max then Err(TooLarge)
    else if |bytes| != size then Err(SizeMismatch)
    else if Sha256(bytes) != sha then Err(DigestMismatch)
    else if r.expectedSize.Some? && r.expectedSize.value != |bytes| then Err(SizeMismatch)
    else if r.expectedSha256.Some? && r.expectedSha256.value != Sha256(bytes) then Err(DigestMismatch)
    else Ok(())
  }

  /** Moves the upload to its digest's path, or drops it when an object is already there. */
  function MoveUpload(s: Store, id: ArtifactId): Store
    requires id in s.uploads
  {
    var d := Sha256(s.uploads[id]);
    if d in s.objects then s.(uploads := s.uploads - {id})
    else s.(uploads := s.uploads - {id}, objects := s.objects[d := s.uploads[id]])
  }

  function Finalize(w: World, id: ArtifactId, size: nat, sha: Digest, max: nat): (World, Ending) {
    var s := w.store;
    if id !in s.manifest then (w, Refused(NotFound))
    else if s.manifest[id].status != Uploading then (w, Refused(Immutable))
    else if id !in s.uploads then (w, Refused(SourceMissing))
    else
      var r, bytes := s.manifest[id], s.uploads[id];
      match CheckUpload(r, bytes, size, sha, max)
      case Err(e) => (w, Refused(e))
      case Ok(_) =>
        match Effect(w, MoveUpload(s, id))
        case None => (w, Crashed)
        case Some(next) => Save(next, id, r.(status := Finalized, sha256 := Some(Sha256(bytes)), size := |bytes|))
  }

  /** A chunk with the finalize flag: what the record does not expect is taken from the file. */
  function UploadLast(w: World, id: ArtifactId, offset: nat, data: Bytes, max: nat): (World, Ending) {
    var (w1, o1) := UploadChunk(w, id, offset, data);
    if !o1.Done? then (w1, o1) else FinalizeAsIs(w1, id, o1.record, max)
  }

  function FinalizeAsIs(w: World, id: ArtifactId, r: Record, max: nat): (World, Ending) {
    if id !in w.store.uploads then (w, Refused(SourceMissing))
    else
      var file := w.store.uploads[id];
      if |file| > max then (w, Refused(TooLarge))
      else
        var size := if r.expectedSize.Some? then r.expectedSize.value else |file|;
        var sha := if r.expectedSha256.Some? then r.expectedSha256.value else Sha256(file);
        Finalize(w, id, size, sha, max)
  }

  function Abort(w: World, id: ArtifactId): (World, Ending) {
    var s := w.store;
    if id !in s.manifest then (w, Refused(NotFound))
    else if s.manifest[id].status != Uploading then (w, Refused(Immutable))
    else if id in s.uploads then
      match Effect(w, s.(uploads := s.uploads - {id}))
      case None => (w, Crashed)
      case Some(next) => Save(next, id, s.manifest[id].(status := Aborted))
    else Save(w, id, s.manifest[id].(status := Aborted))
  }

  // ---------------------------------------------------------------- download

  datatype Piece = Piece(data: Bytes, next: nat, eof: bool)

  function Download(s: Store, id: ArtifactId, offset: nat, limit: nat): Result<Piece, Error> {
    if id !in s.manifest then Err(NotFound)
    else if s.manifest[id].status != Finalized then Err(Immutable)
    else if s.manifest[id].sha256.None? || s.manifest[id].sha256.value !in s.objects then Err(SourceMissing)
    else
      var bytes := s.objects[s.manifest[id].sha256.value];
      var bound := if limit < COPY_BUFFER then limit else COPY_BUFFER;
      var available := if offset < |bytes| then |bytes| - offset else 0;
      var n := if bound < available then bound else available;
      Ok(Piece(if n > 0 then bytes[offset..offset + n] else [], offset + n, offset + n >= |bytes|))
  }

  // ---------------------------------------------------------------- the manager object

  class ArtifactManager {
    const maximumArtifactBytes: nat
    var manifest: map<ArtifactId, Record>
    var uploads: map<ArtifactId, Bytes>
    var objects: map<Digest, Bytes>
    /** File effects left before the process dies. */
    var fuel: nat

    function Files(): Store
      reads this
    {
      Store(manifest, uploads, objects)
    }

    function View(): World
      reads this
    {
      World(Files(), fuel)
    }

    constructor (max: nat, fuel: nat)
      ensures maximumArtifactBytes == max && View() == World(Store(map[], map[], map[]), fuel)
    {
      maximumArtifactBytes := max;
      manifest, uploads, objects := map[], map[], map[];
      this.fuel := fuel;
    }

    method Capture(id: ArtifactId, name: string, source: Option<Bytes>) returns (o: Ending)
      modifies this
      ensures (View(), o) == CreateFromFile(old(View()), id, name, source, maximumArtifactBytes)
    {
      if name == "" { return Refused(InvalidRequest); }
      if source.None? { return Refused(SourceMissing); }
      if |source.value| > maximumArtifactBytes { return Refused(TooLarge); }
      var ok := CopyObject(Sha256(source.value), source.value);
      if !ok { return Crashed; }
      o := SaveManifest(id, Record(name, Finalized, Some(Sha256(source.value)), |source.value|, None, None));
    }

    method CopyObject(d: Digest, bytes: Bytes) returns (ok: bool)
      modifies `objects, `fuel
      ensures (View(), ok) == PersistObject(old(View()), d, bytes)
    {
      if d in objects { return true; }
      if fuel == 0 { return false; }
      objects, fuel := objects[d := []], fuel - 1;
      ghost var begun := View();
      var position := 0;
      while position < |bytes|
        invariant 0 <= position <= |bytes|
        invariant manifest == old(manifest) && uploads == old(uploads)
        invariant CopyOn(View(), d, bytes, position) == CopyOn(begun, d, bytes, 0)
        invariant CutCopy(View(), d, bytes, position) == CutCopy(begun, d, bytes, 0)
      {
        if fuel == 0 { return false; }
        var end := if position + COPY_BUFFER <= |bytes| then position + COPY_BUFFER else |bytes|;
        objects, fuel := objects[d := bytes[..end]], fuel - 1;
        position := end;
      }
      return true;
    }

    method SaveManifest(id: ArtifactId, r: Record) returns (o: Ending)
      modifies `manifest, `fuel
      ensures (View(), o) == Save(old(View()), id, r)
    {
      if fuel == 0 { return Crashed; }
      manifest, fuel := manifest[id := r], fuel - 1;
      return Done(r);
    }

    method Begin(id: ArtifactId, name: string, size: Option<nat>, sha: Option<Digest>) returns (o: Ending)
      modifies this
      ensures (View(), o) == BeginUpload(old(View()), id, name, size, sha)
    {
      if name == "" { return Refused(InvalidRequest); }
      if fuel == 0 { return Crashed; }
      uploads, fuel := uploads[id := []], fuel - 1;
      o := SaveManifest(id, Record(name, Uploading, None, 0, size, sha));
    }

    method Upload(id: ArtifactId, offset: nat, data: Bytes, finalize: bool) returns (o: Ending)
      modifies this
      ensures (View(), o) == if finalize then UploadLast(old(View()), id, offset, data, maximumArtifactBytes)
                             else UploadChunk(old(View()), id, offset, data)
    {
      if id !in manifest { return Refused(NotFound); }
      var r := manifest[id];
      if r.status != Uploading { return Refused(Immutable); }
      if offset != r.size { return Refused(OffsetMismatch); }
      if id !in uploads { return Refused(SourceMissing); }
      if fuel == 0 { return Crashed; }
      uploads, fuel := uploads[id := WriteAt(uploads[id], offset, data)], fuel - 1;
      o := SaveManifest(id, r.(size := r.size + |data|));
      if finalize && o.Done? {
        var file := uploads[id];
        if |file| > maximumArtifactBytes { return Refused(TooLarge); }
        o := FinalizeUpload(id, if r.expectedSize.Some? then r.expectedSize.value else |file|,
                            if r.expectedSha256.Some? then r.expectedSha256.value else Sha256(file));
      }
    }

    method FinalizeUpload(id: ArtifactId, size: nat, sha: Digest) returns (o: Ending)
      modifies this
      ensures (View(), o) == Finalize(old(View()), id, size, sha, maximumArtifactBytes)
    {
      if id !in manifest { return Refused(NotFound); }
      var r := manifest[id];
      if r.status != Uploading { return Refused(Immutable); }
      if id !in uploads { return Refused(SourceMissing); }
      var bytes := uploads[id];
      var checked := CheckUpload(r, bytes, size, sha, maximumArtifactBytes);
      if checked.Err? { return Refused(checked.error); }
      if fuel == 0 { return Crashed; }
      if Sha256(bytes) !in objects { objects := objects[Sha256(bytes) := bytes]; }
      uploads, fuel := uploads - {id}, fuel - 1;
      o := SaveManifest(id, r.(status := Finalized, sha256 := Some(Sha256(bytes)), size := |bytes|));
    }

    method AbortUpload(id: ArtifactId) returns (o: Ending)
      modifies this
      ensures (View(), o) == Abort(old(View()), id)
    {
      if id !in manifest { return Refused(NotFound); }
      var r := manifest[id];
      if r.status != Uploading { return Refused(Immutable); }
      if id in uploads {
        if fuel == 0 { return Crashed; }
        uploads, fuel := uploads - {id}, fuel - 1;
      }
      o := SaveManifest(id, r.(status := Aborted));
    }

    /** A reader that follows `next` until the end, with any limits of at least one. */
    method DownloadAll(id: ArtifactId, limits: nat -> nat) returns (bytes: Result<Bytes, Error>)
      requires forall k :: limits(k) >= 1
      ensures bytes == Whole(Files(), id)
    {
      var out: Bytes := [];
      var offset, turn := 0, 0;
      var piece := Download(Files(), id, 0, limits(0));
      if piece.Err? { return Err(piece.error); }
      ghost var whole := objects[manifest[id].sha256.value];
      while true
        invariant Download(Files(), id, offset, limits(turn)).Ok?
        invariant piece == Download(Files(), id, offset, limits(turn))
        invariant Whole(Files(), id) == Ok(whole) && 0 <= offset <= |whole| && out == whole[..offset]
        decreases |whole| - offset, if piece.value.eof then 0 else 1
      {
        out := out + piece.value.data;
        if piece.value.eof {
          assert out == whole;
          return Ok(out);
        }
        offset, turn := piece.value.next, turn + 1;
        piece := Download(Files(), id, offset, limits(turn));
      }
    }
  }

  /** The bytes of a finalized artifact. */
  function Whole(s: Store, id: ArtifactId): Result<Bytes, Error> {
    if id !in s.manifest then Err(NotFound)
    else if s.manifest[id].status != Finalized then Err(Immutable)
    else if s.manifest[id].sha256.None? || s.manifest[id].sha256.value !in s.objects then Err(SourceMissing)
    else Ok(s.objects[s.manifest[id].sha256.value])
  }

  // ---------------------------------------------------------------- runs

  datatype Operation =
    | Create(id: ArtifactId, name: string, source: Option<Bytes>)
    | Begin(id: ArtifactId, name: string, expectedSize: Option<nat>, expectedSha: Option<Digest>)
    | Chunk(id: ArtifactId, offset: nat, data: Bytes)
    | Last(id: ArtifactId, offset: nat, data: Bytes)
    | Finish(id: ArtifactId, size: nat, sha: Digest)
    | Cancel(id: ArtifactId)

  /** An operation that dies after `fuel` file effects, if it makes that many. */
  datatype Call = Call(op: Operation, fuel: nat)

  function Perform(s: Store, c: Call, max: nat): (Store, Ending) {
    var w := World(s, c.fuel);
    var (next, o) := match c.op
      case Create(id, name, source) => CreateFromFile(w, id, name, source, max)
      case Begin(id, name, size, sha) => BeginUpload(w, id, name, size, sha)
      case Chunk(id, offset, data) => UploadChunk(w, id, offset, data)
      case Last(id, offset, data) => UploadLast(w, id, offset, data, max)
      case Finish(id, size, sha) => Finalize(w, id, size, sha, max)
      case Cancel(id) => Abort(w, id);
    (next.store, o)
  }

  /** A new artifact gets an identifier that was never used. */
  predicate FreshId(s: Store, op: Operation) {
    op.Create? || op.Begin? ==> op.id !in s.manifest && op.id !in s.uploads
  }

  /** The number of effects that copying takes: opening the object and one per buffer. */
  function CopySteps(n: nat): nat {
    1 + (n + COPY_BUFFER - 1) / COPY_BUFFER
  }

  /** The call opens the object at `d` and dies before its copy is complete. */
  predicate CutsCopy(s: Store, c: Call, max: nat, d: Digest) {
    && c.op.Create? && c.op.name != "" && c.op.source.Some? && |c.op.source.value| <= max
    && Sha256(c.op.source.value) == d && d !in s.objects
    && 0 < c.fuel < CopySteps(|c.op.source.value|)
  }

  /** Some call of the run cuts the copy that makes the object at `d`. */
  ghost predicate EverCut(s: Store, calls: seq<Call>, max: nat, d: Digest)
    decreases calls
  {
    calls != [] && (CutsCopy(s, calls[0], max, d) || EverCut(Perform(s, calls[0], max).0, calls[1..], max, d))
  }

  ghost predicate FreshRun(s: Store, calls: seq<Call>, max: nat)
    decreases calls
  {
    calls == [] || (FreshId(s, calls[0].op) && FreshRun(Perform(s, calls[0], max).0, calls[1..], max))
  }

  function Run(s: Store, calls: seq<Call>, max: nat): Store
    decreases calls
  {
    if calls == [] then s else Run(Perform(s, calls[0], max).0, calls[1..], max)
  }

  ghost predicate FinalizedHeld(s: Store) {
    forall id | id in s.manifest && s.manifest[id].status == Finalized ::
      && s.manifest[id].sha256.Some? && s.manifest[id].sha256.value in s.objects
      && s.manifest[id].size == |s.manifest[id].sha256.value.preimage|
  }

  /** Objects stay, and finalized records never change. */
  ghost predicate Persists(s: Store, t: Store) {
    && (forall d | d in s.objects :: d in t.objects && t.objects[d] == s.objects[d])
    && (forall id | id in s.manifest && s.manifest[id].status == Finalized ::
          id in t.manifest && t.manifest[id] == s.manifest[id])
  }

  /** A copy with enough effects left completes the object and touches nothing else. */
  lemma {:induction false} CopyCompletes(w: World, d: Digest, bytes: Bytes, position: nat)
    requires position <= |bytes| && d in w.store.objects && w.store.objects[d] == bytes[..position]
    ensures CopyOn(w, d, bytes, position).Some? <==> w.fuel * COPY_BUFFER >= |bytes| - position
    ensures CopyOn(w, d, bytes, position).Some? ==>
              CopyOn(w, d, bytes, position).value.store == w.store.(objects := w.store.objects[d := bytes])
    decreases |bytes| - position
  {
    if position == |bytes| {
      assert bytes[..position] == bytes && w.store.objects[d := bytes] == w.store.objects;
    } else if w.fuel > 0 {
      var end := if position + COPY_BUFFER <= |bytes| then position + COPY_BUFFER else |bytes|;
      var next := World(w.store.(objects := w.store.objects[d := bytes[..end]]), w.fuel - 1);
      CopyCompletes(next, d, bytes, end);
      assert next.store.objects[d := bytes] == w.store.objects[d := bytes];
    }
  }

  /** A copy that dies leaves the buffers it wrote: a proper prefix under the full digest. */
  lemma {:induction false} CutCopyLeavesPrefix(w: World, d: Digest, bytes: Bytes, position: nat)
    requires position <= |bytes| && d in w.store.objects && w.store.objects[d] == bytes[..position]
    requires CopyOn(w, d, bytes, position).None?
    ensures var t := CutCopy(w, d, bytes, position).store;
            d in t.objects && t.objects[d] < bytes && t == w.store.(objects := w.store.objects[d := t.objects[d]])
    decreases |bytes| - position
  {
    if w.fuel == 0 {
      assert w.store.objects == w.store.objects[d := w.store.objects[d]];
    } else {
      var end := if position + COPY_BUFFER <= |bytes| then position + COPY_BUFFER else |bytes|;
      var next := World(w.store.(objects := w.store.objects[d := bytes[..end]]), w.fuel - 1);
      CutCopyLeavesPrefix(next, d, bytes, end);
      var t := CutCopy(next, d, bytes, end).store;
      assert next.store.objects[d := t.objects[d]] == w.store.objects[d := t.objects[d]];
    }
  }

  /** Persisting leaves a whole object, or a proper prefix when it is cut after opening the file. */
  lemma PersistsObject(w: World, d: Digest, bytes: Bytes)
    requires d == Sha256(bytes)
    ensures var (next, ok) := PersistObject(w, d, bytes);
            if d in w.store.objects then ok && next == w
            else
              && (ok <==> w.fuel >= CopySteps(|bytes|))
              && (ok ==> next.store == w.store.(objects := w.store.objects[d := bytes]))
              && (w.fuel == 0 ==> next == w)
              && (!ok && w.fuel > 0 ==>
                    && d in next.store.objects && next.store.objects[d] < bytes
                    && next.store == w.store.(objects := w.store.objects[d := next.store.objects[d]]))
  {
    if d !in w.store.objects && w.fuel > 0 {
      var begun := World(w.store.(objects := w.store.objects[d := []]), w.fuel - 1);
      assert bytes[..0] == [];
      CopyCompletes(begun, d, bytes, 0);
      assert begun.store.objects[d := bytes] == w.store.objects[d := bytes];
      if CopyOn(begun, d, bytes, 0).None? {
        CutCopyLeavesPrefix(begun, d, bytes, 0);
        var t := CutCopy(begun, d, bytes, 0).store;
        assert begun.store.objects[d := t.objects[d]] == w.store.objects[d := t.objects[d]];
      }
    }
  }

  ghost predicate Kept(s: Store, t: Store) {
    FinalizedHeld(t) && Persists(s, t)
  }

  lemma CreateKeeps(s: Store, c: Call, max: nat)
    requires FinalizedHeld(s) && c.op.Create? && FreshId(s, c.op)
    ensures Kept(s, Perform(s, c, max).0)
  {
    if c.op.source.Some? {
      PersistsObject(World(s, c.fuel), Sha256(c.op.source.value), c.op.source.value);
    }
  }

  lemma UploadKeeps(s: Store, c: Call, max: nat)
    requires FinalizedHeld(s) && FreshId(s, c.op) && (c.op.Begin? || c.op.Chunk?)
    ensures Kept(s, Perform(s, c, max).0)
  {
  }

  /** Nothing but the record and the upload of `id` changes, objects only appear, and those appear whole. */
  ghost predicate TouchesOnly(s: Store, id: ArtifactId, t: Store) {
    && (forall j | j != id :: (j in t.manifest <==> j in s.manifest) && (j in s.manifest ==> t.manifest[j] == s.manifest[j]))
    && (forall j | j != id :: (j in t.uploads <==> j in s.uploads) && (j in s.uploads ==> t.uploads[j] == s.uploads[j]))
    && (forall d | d in s.objects :: d in t.objects && t.objects[d] == s.objects[d])
    && (forall d | d in t.objects && d !in s.objects :: t.objects[d] == d.preimage)
  }

  lemma LastTouches(w: World, id: ArtifactId, offset: nat, data: Bytes, max: nat)
    ensures TouchesOnly(w.store, id, UploadLast(w, id, offset, data, max).0.store)
  {
    var (w1, o1) := UploadChunk(w, id, offset, data);
    ChunkTouches(w, id, offset, data);
    hide UploadChunk, Finalize;
    if o1.Done? && id in w1.store.uploads {
      var r, file := o1.record, w1.store.uploads[id];
      FinalizeTouches(w1, id, if r.expectedSize.Some? then r.expectedSize.value else |file|,
                      if r.expectedSha256.Some? then r.expectedSha256.value else Sha256(file), max);
    }
  }

  lemma ChunkTouches(w: World, id: ArtifactId, offset: nat, data: Bytes)
    ensures TouchesOnly(w.store, id, UploadChunk(w, id, offset, data).0.store)
    ensures UploadChunk(w, id, offset, data).0.store.objects == w.store.objects
  {
  }

  lemma FinalizeTouches(w: World, id: ArtifactId, size: nat, sha: Digest, max: nat)
    ensures TouchesOnly(w.store, id, Finalize(w, id, size, sha, max).0.store)
  {
  }

  lemma FinalizeKeeps(w: World, id: ArtifactId, size: nat, sha: Digest, max: nat)
    requires FinalizedHeld(w.store)
    ensures Kept(w.store, Finalize(w, id, size, sha, max).0.store)
  {
  }

  lemma LastKeeps(s: Store, c: Call, max: nat)
    requires FinalizedHeld(s) && c.op.Last?
    ensures Kept(s, Perform(s, c, max).0)
  {
    var id := c.op.id;
    var (w1, o1) := UploadChunk(World(s, c.fuel), id, c.op.offset, c.op.data);
    assert Kept(s, w1.store);
    hide Finalize, UploadChunk;
    if o1.Done? && id in w1.store.uploads {
      var r, file := o1.record, w1.store.uploads[id];
      FinalizeKeeps(w1, id, if r.expectedSize.Some? then r.expectedSize.value else |file|,
                    if r.expectedSha256.Some? then r.expectedSha256.value else Sha256(file), max);
    }
  }

  lemma FinishKeeps(s: Store, c: Call, max: nat)
    requires FinalizedHeld(s) && (c.op.Finish? || c.op.Cancel?)
    ensures Kept(s, Perform(s, c, max).0)
  {
  }

  lemma PerformKeeps(s: Store, c: Call, max: nat)
    requires FinalizedHeld(s) && FreshId(s, c.op)
    ensures Kept(s, Perform(s, c, max).0)
  {
    hide Perform;
    match c.op
    case Create(_, _, _) => CreateKeeps(s, c, max);
    case Begin(_, _, _, _) => UploadKeeps(s, c, max);
    case Chunk(_, _, _) => UploadKeeps(s, c, max);
    case Last(_, _, _) => LastKeeps(s, c, max);
    case Finish(_, _, _) => FinishKeeps(s, c, max);
    case Cancel(_) => FinishKeeps(s, c, max);
  }

  lemma {:induction false} RunKeeps(s: Store, calls: seq<Call>, max: nat)
    requires FinalizedHeld(s) && FreshRun(s, calls, max)
    ensures Kept(s, Run(s, calls, max))
    decreases calls
  {
    if calls != [] {
      PerformKeeps(s, calls[0], max);
      hide Perform;
      RunKeeps(Perform(s, calls[0], max).0, calls[1..], max);
    }
  }

  /** An object is made once, and made whole exactly when its copy is not cut. */
  lemma ObjectStep(s: Store, c: Call, max: nat, d: Digest)
    ensures var t := Perform(s, c, max).0;
            && (d in s.objects ==> d in t.objects && t.objects[d] == s.objects[d])
            && (d !in s.objects && d in t.objects ==> (t.objects[d] == d.preimage <==> !CutsCopy(s, c, max, d)))
            && (d !in t.objects ==> !CutsCopy(s, c, max, d))
  {
    if c.op.Create? && c.op.source.Some? {
      PersistsObject(World(s, c.fuel), Sha256(c.op.source.value), c.op.source.value);
      hide PersistObject;
    } else if c.op.Last? {
      LastTouches(World(s, c.fuel), c.op.id, c.op.offset, c.op.data, max);
      hide UploadLast;
    } else if c.op.Finish? {
      FinalizeTouches(World(s, c.fuel), c.op.id, c.op.size, c.op.sha, max);
      hide Finalize;
    }
  }

  lemma {:induction false} NeverCutAgain(s: Store, calls: seq<Call>, max: nat, d: Digest)
    requires d in s.objects
    ensures !EverCut(s, calls, max, d)
    ensures d in Run(s, calls, max).objects && Run(s, calls, max).objects[d] == s.objects[d]
    decreases calls
  {
    if calls != [] {
      ObjectStep(s, calls[0], max, d);
      hide Perform;
      NeverCutAgain(Perform(s, calls[0], max).0, calls[1..], max, d);
    }
  }

  /** After any run an object holds the bytes its name was hashed from exactly when it did before, or
      was made by a copy that was not cut. */
  lemma {:induction false} ObjectsRightExactlyWhen(s: Store, calls: seq<Call>, max: nat, d: Digest)
    ensures var t := Run(s, calls, max);
            && (d !in t.objects ==> d !in s.objects && !EverCut(s, calls, max, d))
            && (d in t.objects ==>
                  (t.objects[d] == d.preimage <==>
                     (d in s.objects ==> s.objects[d] == d.preimage) && !EverCut(s, calls, max, d)))
    decreases calls
  {
    if calls != [] {
      ObjectStep(s, calls[0], max, d);
      var next := Perform(s, calls[0], max).0;
      if d in next.objects { NeverCutAgain(next, calls[1..], max, d); }
      hide Perform, CutsCopy;
      ObjectsRightExactlyWhen(next, calls[1..], max, d);
    }
  }

  const EMPTY := Store(map[], map[], map[])

  /** Over any interleaving of captures, uploads, finalizations and aborts, each cut off anywhere, a
      finalized record and the bytes it points to never change again, also when records share one
      object. The bytes are those of the recorded hash exactly when no capture died while it copied
      them into place. */
  lemma FinalizedBytesAreFixed(calls: seq<Call>, more: seq<Call>, max: nat, id: ArtifactId)
    requires FreshRun(EMPTY, calls, max) && FreshRun(Run(EMPTY, calls, max), more, max)
    requires id in Run(EMPTY, calls, max).manifest && Run(EMPTY, calls, max).manifest[id].status == Finalized
    ensures var s, t := Run(EMPTY, calls, max), Run(Run(EMPTY, calls, max), more, max);
            var r := s.manifest[id];
            && r.sha256.Some? && r.size == |r.sha256.value.preimage|
            && Whole(s, id).Ok? && Whole(t, id) == Whole(s, id) && id in t.manifest && t.manifest[id] == r
            && (Whole(s, id) == Ok(r.sha256.value.preimage) <==> !EverCut(EMPTY, calls, max, r.sha256.value))
  {
    RunKeeps(EMPTY, calls, max);
    var s := Run(EMPTY, calls, max);
    RunKeeps(s, more, max);
    ObjectsRightExactlyWhen(EMPTY, calls, max, s.manifest[id].sha256.value);
  }

  // ---------------------------------------------------------------- a copy that was cut

  /** A capture that is not cut yields a record of the source's bytes exactly when no other bytes lay
      at its digest before. */
  lemma CaptureIsRightExactlyWhen(s: Store, id: ArtifactId, name: string, bytes: Bytes, max: nat, fuel: nat)
    requires name != "" && |bytes| <= max && fuel > CopySteps(|bytes|)
    ensures var (t, o) := Perform(s, Call(Create(id, name, Some(bytes)), fuel), max);
            && o.Done? && o.record.sha256 == Some(Sha256(bytes)) && o.record.size == |bytes|
            && (Whole(t, id) == Ok(bytes) <==> (Sha256(bytes) in s.objects ==> s.objects[Sha256(bytes)] == bytes))
  {
    PersistsObject(World(s, fuel), Sha256(bytes), bytes);
    CopyFuel(World(s, fuel), bytes);
  }

  /** Copying takes no more effects than `CopySteps`. */
  lemma CopyFuel(w: World, bytes: Bytes)
    requires w.fuel > CopySteps(|bytes|)
    ensures PersistObject(w, Sha256(bytes), bytes).0.fuel > 0
  {
    if Sha256(bytes) !in w.store.objects {
      var begun := World(w.store.(objects := w.store.objects[Sha256(bytes) := []]), w.fuel - 1);
      assert bytes[..0] == [];
      CopyCompletes(begun, Sha256(bytes), bytes, 0);
      CopyUses(begun, Sha256(bytes), bytes, 0);
    }
  }

  lemma {:induction false} CopyUses(w: World, d: Digest, bytes: Bytes, position: nat)
    requires position <= |bytes|
    ensures CopyOn(w, d, bytes, position).Some? ==>
              CopyOn(w, d, bytes, position).value.fuel == w.fuel - (|bytes| - position + COPY_BUFFER - 1) / COPY_BUFFER
    decreases |bytes| - position
  {
    if position < |bytes| && w.fuel > 0 {
      var end := if position + COPY_BUFFER <= |bytes| then position + COPY_BUFFER else |bytes|;
      CopyUses(World(w.store.(objects := w.store.objects[d := bytes[..end]]), w.fuel - 1), d, bytes, end);
    }
  }

  /** A partial object is trusted: a capture that died after opening its object, then the same capture
      again, gives a finalized record whose bytes are not those of its digest. */
  lemma PartialObjectIsTrusted(id: ArtifactId, again: ArtifactId, name: string, bytes: Bytes, max: nat)
    requires name != "" && 0 < |bytes| <= max && id != again
    ensures var s := Run(EMPTY, [Call(Create(id, name, Some(bytes)), 1)], max);
            var (t, o) := Perform(s, Call(Create(again, name, Some(bytes)), CopySteps(|bytes|) + 1), max);
            o.Done? && o.record.sha256 == Some(Sha256(bytes)) && Whole(t, again) == Ok([])
  {
    var first := Call(Create(id, name, Some(bytes)), 1);
    var s := Perform(EMPTY, first, max).0;
    assert [first][1..] == [];
    assert Run(EMPTY, [first], max) == Run(s, [], max) == s;
    var begun := World(EMPTY.(objects := map[Sha256(bytes) := []]), 0);
    assert CopyOn(begun, Sha256(bytes), bytes, 0).None?;
    assert s.objects == map[Sha256(bytes) := []];
  }

  // ---------------------------------------------------------------- uploads come back whole

  /** What the manifest acknowledges, and what chunks that died left in the file behind it. */
  datatype Progress = Progress(acked: Bytes, tail: Bytes)

  ghost predicate Staged(s: Store, id: ArtifactId, p: Progress) {
    && id in s.manifest && s.manifest[id].status == Uploading && s.manifest[id].size == |p.acked|
    && id in s.uploads && s.uploads[id] == p.acked + p.tail
  }

  function Beyond(tail: Bytes, n: nat): Bytes {
    if n <= |tail| then tail[n..] else []
  }

  /** The progress after a chunk call: refused at a wrong offset, cut before the file, cut between the
      file and the manifest, or acknowledged. */
  function AfterChunk(p: Progress, offset: nat, data: Bytes, fuel: nat): Progress {
    if offset != |p.acked| || fuel == 0 then p
    else if fuel == 1 then Progress(p.acked, data + Beyond(p.tail, |data|))
    else Progress(p.acked + data, Beyond(p.tail, |data|))
  }

  lemma {:induction false} CopyKeepsUploads(w: World, d: Digest, bytes: Bytes, position: nat)
    requires position <= |bytes|
    ensures CutCopy(w, d, bytes, position).store.uploads == w.store.uploads
    ensures CutCopy(w, d, bytes, position).store.manifest == w.store.manifest
    ensures CopyOn(w, d, bytes, position).Some? ==>
              && CopyOn(w, d, bytes, position).value.store.uploads == w.store.uploads
              && CopyOn(w, d, bytes, position).value.store.manifest == w.store.manifest
    decreases |bytes| - position
  {
    if position < |bytes| && w.fuel > 0 {
      var end := if position + COPY_BUFFER <= |bytes| then position + COPY_BUFFER else |bytes|;
      CopyKeepsUploads(World(w.store.(objects := w.store.objects[d := bytes[..end]]), w.fuel - 1), d, bytes, end);
    }
  }

  /** No operation on another artifact touches an upload or its record. */
  lemma OthersLeaveUpload(s: Store, c: Call, max: nat, id: ArtifactId)
    requires c.op.id != id
    ensures var t := Perform(s, c, max).0;
            && (id in t.manifest <==> id in s.manifest) && (id in s.manifest ==> t.manifest[id] == s.manifest[id])
            && (id in t.uploads <==> id in s.uploads) && (id in s.uploads ==> t.uploads[id] == s.uploads[id])
  {
    if c.op.Last? {
      LastTouches(World(s, c.fuel), c.op.id, c.op.offset, c.op.data, max);
      hide UploadLast;
    } else if c.op.Finish? {
      FinalizeTouches(World(s, c.fuel), c.op.id, c.op.size, c.op.sha, max);
      hide Finalize;
    } else if c.op.Create? && c.op.source.Some? && c.fuel > 0 {
      var bytes := c.op.source.value;
      CopyKeepsUploads(World(s.(objects := s.objects[Sha256(bytes) := []]), c.fuel - 1), Sha256(bytes), bytes, 0);
    }
  }

  lemma ChunkGoesOn(s: Store, id: ArtifactId, p: Progress, c: Call, max: nat)
    requires Staged(s, id, p) && c.op.Chunk? && c.op.id == id
    ensures var after := AfterChunk(p, c.op.offset, c.op.data, c.fuel);
            && Staged(Perform(s, c, max).0, id, after)
            && Perform(s, c, max).0.manifest[id] == s.manifest[id].(size := |after.acked|)
  {
    var data := c.op.data;
    assert WriteAt(p.acked + p.tail, |p.acked|, data) == p.acked + (data + Beyond(p.tail, |data|));
    Associate(p.acked, data, Beyond(p.tail, |data|));
  }

  /** The calls on `id` are chunks, at any offset and cut anywhere; all others are on other artifacts. */
  predicate OnlyChunks(calls: seq<Call>, id: ArtifactId) {
    forall i | 0 <= i < |calls| :: calls[i].op.id == id ==> calls[i].op.Chunk?
  }

  function Fed(calls: seq<Call>, id: ArtifactId, p: Progress): Progress
    decreases calls
  {
    if calls == [] then p
    else
      var c := calls[0];
      Fed(calls[1..], id, if c.op.id == id && c.op.Chunk? then AfterChunk(p, c.op.offset, c.op.data, c.fuel) else p)
  }

  lemma {:induction false} UploadsInterleave(s: Store, calls: seq<Call>, id: ArtifactId, p: Progress, max: nat)
    requires Staged(s, id, p) && OnlyChunks(calls, id)
    ensures Staged(Run(s, calls, max), id, Fed(calls, id, p))
    ensures Run(s, calls, max).manifest[id] == s.manifest[id].(size := |Fed(calls, id, p).acked|)
    decreases calls
  {
    if calls != [] {
      var c, next := calls[0], Perform(s, calls[0], max).0;
      if c.op.id != id {
        OthersLeaveUpload(s, c, max, id);
        hide Perform;
        UploadsInterleave(next, calls[1..], id, p, max);
      } else {
        ChunkGoesOn(s, id, p, c, max);
        hide Perform;
        UploadsInterleave(next, calls[1..], id, AfterChunk(p, c.op.offset, c.op.data, c.fuel), max);
      }
    }
  }

  /** Finalizing with the size and digest of the acknowledged bytes is accepted exactly when no dead
      chunk left bytes behind them. */
  lemma FinishAccepts(s: Store, id: ArtifactId, p: Progress, max: nat)
    requires Staged(s, id, p) && |p.acked| <= max
    requires s.manifest[id].expectedSize.Some? ==> s.manifest[id].expectedSize.value == |p.acked|
    requires s.manifest[id].expectedSha256.Some? ==> s.manifest[id].expectedSha256.value == Sha256(p.acked)
    ensures var (t, o) := Perform(s, Call(Finish(id, |p.acked|, Sha256(p.acked)), 2), max);
            && (o.Done? <==> p.tail == []) && (!o.Done? ==> o.Refused? && t == s)
            && (o.Done? ==>
                  && o.record.status == Finalized && o.record.sha256 == Some(Sha256(p.acked)) && o.record.size == |p.acked|
                  && Whole(t, id) == Ok(if Sha256(p.acked) in s.objects then s.objects[Sha256(p.acked)] else p.acked))
  {
    if p.tail == [] { assert p.acked + p.tail == p.acked; }
  }

  // ---------------------------------------------------------------- a finalization that was cut

  /** The upload is aborted, or its file is gone while its record still says uploading. */
  predicate Lost(s: Store, id: ArtifactId) {
    && id in s.manifest
    && (s.manifest[id].status == Aborted || (s.manifest[id].status == Uploading && id !in s.uploads))
  }

  lemma {:induction false} LostForGood(s: Store, calls: seq<Call>, max: nat, id: ArtifactId)
    requires Lost(s, id) && FreshRun(s, calls, max)
    ensures Lost(Run(s, calls, max), id)
    decreases calls
  {
    if calls != [] {
      hide Perform;
      LostStays(s, calls[0], max, id);
      LostForGood(Perform(s, calls[0], max).0, calls[1..], max, id);
    }
  }

  lemma LostStays(s: Store, c: Call, max: nat, id: ArtifactId)
    requires Lost(s, id) && FreshId(s, c.op)
    ensures Lost(Perform(s, c, max).0, id)
  {
    if c.op.id != id { OthersLeaveUpload(s, c, max, id); hide Perform; }
  }

  /** The run, whatever it does, leaves the artifact finalized. */
  ghost predicate Finalizes(s: Store, calls: seq<Call>, max: nat, id: ArtifactId) {
    FreshRun(s, calls, max) && id in Run(s, calls, max).manifest && Run(s, calls, max).manifest[id].status == Finalized
  }

  /** An upload that could be finalized can never be after a finalization cut between the move of its file
      and the record, and only then: the retry is refused, and aborting is all that is left. */
  lemma FinalizableAfterCutExactlyWhen(s: Store, id: ArtifactId, bytes: Bytes, fuel: nat, max: nat)
    requires Staged(s, id, Progress(bytes, [])) && |bytes| <= max
    requires s.manifest[id].expectedSize.Some? ==> s.manifest[id].expectedSize.value == |bytes|
    requires s.manifest[id].expectedSha256.Some? ==> s.manifest[id].expectedSha256.value == Sha256(bytes)
    ensures var cut := Perform(s, Call(Finish(id, |bytes|, Sha256(bytes)), fuel), max).0;
            && (fuel != 1 <==> exists more :: Finalizes(cut, more, max, id))
            && (fuel == 1 ==>
                  && Perform(cut, Call(Finish(id, |bytes|, Sha256(bytes)), 2), max) == (cut, Refused(SourceMissing))
                  && Perform(cut, Call(Cancel(id), 1), max).1 == Done(s.manifest[id].(status := Aborted))
                  && Sha256(bytes) in cut.objects)
  {
    var finish := Finish(id, |bytes|, Sha256(bytes));
    var cut := Perform(s, Call(finish, fuel), max).0;
    assert bytes + [] == bytes;
    if fuel == 1 {
      assert Lost(cut, id);
      forall more | FreshRun(cut, more, max)
        ensures !Finalizes(cut, more, max, id)
      {
        LostForGood(cut, more, max, id);
      }
    } else if fuel == 0 {
      FinishAccepts(s, id, Progress(bytes, []), max);
      RunOnce(cut, Call(finish, 2), max);
      assert Finalizes(cut, [Call(finish, 2)], max, id);
    } else {
      assert Finalizes(cut, [], max, id);
    }
  }

  lemma RunOnce(s: Store, c: Call, max: nat)
    requires FreshId(s, c.op)
    ensures Run(s, [c], max) == Perform(s, c, max).0 && FreshRun(s, [c], max)
  {
    assert [c][1..] == [];
    assert FreshRun(Perform(s, c, max).0, [], max) && Run(Perform(s, c, max).0, [], max) == Perform(s, c, max).0;
  }

  /** A chunk with the finalize flag takes the file as it is: without expectations it is accepted also when
      a dead chunk left bytes behind it, and then the artifact is what was acknowledged and sent exactly
      when the last chunk covers those bytes. With expectations it is accepted exactly when the file meets
      them. */
  lemma LastChunkIsRightExactlyWhen(s: Store, id: ArtifactId, p: Progress, data: Bytes, max: nat)
    requires Staged(s, id, p)
    ensures var file := p.acked + data + Beyond(p.tail, |data|);
            var (t, o) := Perform(s, Call(Last(id, |p.acked|, data), 4), max);
            && (o.Done? <==>
                  && |file| <= max
                  && (s.manifest[id].expectedSize.Some? ==> s.manifest[id].expectedSize.value == |file|)
                  && (s.manifest[id].expectedSha256.Some? ==> s.manifest[id].expectedSha256.value == Sha256(file)))
            && (o.Done? ==>
                  && o.record.status == Finalized && o.record.sha256 == Some(Sha256(file)) && o.record.size == |file|
                  && (o.record.sha256 == Some(Sha256(p.acked + data)) <==> |data| >= |p.tail|))
  {
    var chunk := Call(Chunk(id, |p.acked|, data), 4);
    ChunkGoesOn(s, id, p, chunk, max);
    assert Sha256(p.acked + data + Beyond(p.tail, |data|)) == Sha256(p.acked + data) <==>
           p.acked + data + Beyond(p.tail, |data|) == p.acked + data;
  }

  /** Round trip: an upload fed any chunks, refused, cut or acknowledged, whatever happens to other
      artifacts in between, finalizes under the digest of its acknowledged bytes exactly when no dead
      chunk left bytes behind them, and then holds those bytes unless some capture of the same bytes
      died while it copied them. */
  lemma UploadRoundTrip(s: Store, calls: seq<Call>, id: ArtifactId, max: nat)
    requires Staged(s, id, Progress([], [])) && OnlyChunks(calls, id)
    requires var bytes := Fed(calls, id, Progress([], [])).acked;
             && |bytes| <= max
             && (s.manifest[id].expectedSize.Some? ==> s.manifest[id].expectedSize.value == |bytes|)
             && (s.manifest[id].expectedSha256.Some? ==> s.manifest[id].expectedSha256.value == Sha256(bytes))
    ensures var p := Fed(calls, id, Progress([], []));
            var d := Sha256(p.acked);
            var (t, o) := Perform(Run(s, calls, max), Call(Finish(id, |p.acked|, d), 2), max);
            && (o.Done? <==> p.tail == [])
            && (o.Done? ==>
                  && o.record.status == Finalized && o.record.sha256 == Some(d) && o.record.size == |p.acked|
                  && (Whole(t, id) == Ok(p.acked) <==>
                        (d in s.objects ==> s.objects[d] == p.acked) && !EverCut(s, calls, max, d)))
  {
    var p := Fed(calls, id, Progress([], []));
    UploadsInterleave(s, calls, id, Progress([], []), max);
    FinishAccepts(Run(s, calls, max), id, p, max);
    hide Perform, Staged;
    ObjectsRightExactlyWhen(s, calls, max, Sha256(p.acked));
  }

  /** A chunk that died between the file and the manifest is followed by a chunk at the same offset. The
      upload then finalizes exactly when the second chunk covers what the first one left. */
  lemma ResendIsRightExactlyWhen(s: Store, id: ArtifactId, acked: Bytes, first: Bytes, second: Bytes, max: nat)
    requires Staged(s, id, Progress(acked, [])) && |acked + second| <= max
    requires s.manifest[id].expectedSize.None? && s.manifest[id].expectedSha256.None?
    ensures var cut := Perform(s, Call(Chunk(id, |acked|, first), 1), max).0;
            var (sent, again) := Perform(cut, Call(Chunk(id, |acked|, second), 2), max);
            var o := Perform(sent, Call(Finish(id, |acked + second|, Sha256(acked + second)), 2), max).1;
            again.Done? && (o.Done? <==> |second| >= |first|)
  {
    var x, y := Call(Chunk(id, |acked|, first), 1), Call(Chunk(id, |acked|, second), 2);
    ChunkGoesOn(s, id, Progress(acked, []), x, max);
    var cut := Perform(s, x, max).0;
    ChunkGoesOn(cut, id, Progress(acked, first + []), y, max);
    assert first + [] == first && Beyond([], |first|) == [];
    FinishAccepts(Perform(cut, y, max).0, id, Progress(acked + second, Beyond(first, |second|)), max);
  }

  /** So the same chunk can always be sent again. */
  lemma CutChunkCanBeSentAgain(s: Store, id: ArtifactId, acked: Bytes, data: Bytes, max: nat)
    requires Staged(s, id, Progress(acked, []))
    ensures var (cut, o) := Perform(s, Call(Chunk(id, |acked|, data), 1), max);
            var (t, again) := Perform(cut, Call(Chunk(id, |acked|, data), 2), max);
            o.Crashed? && again.Done? && Staged(t, id, Progress(acked + data, []))
  {
    var x, y := Call(Chunk(id, |acked|, data), 1), Call(Chunk(id, |acked|, data), 2);
    ChunkGoesOn(s, id, Progress(acked, []), x, max);
    ChunkGoesOn(Perform(s, x, max).0, id, Progress(acked, data + Beyond([], |data|)), y, max);
  }
}
