/**
 * The recording spool: a directory of media files and one journal, an in-memory
 * copy of that journal, and one capture task per running recording.
 *
 * Steps are as fine as a crash can tell apart: each file effect is its own step,
 * and a crash may follow any of them. File effects that completed survive it.
 */
module RecordingSpool {
  import opened Wrappers
  import opened Bytes

  type Id = nat

  const MPEG_TS_SYNC: Byte := 0x47

  datatype Status = Pending | Recording | Ready | Failed

  /** A digest is represented by the content it stands for, that is, as collision-free. */
  datatype Manifest = Manifest(
    camera: string, status: Status, requestedAt: nat, duration: nat, motion: bool,
    bytes: Option<nat>, digest: Option<seq<Byte>>, error: Option<string>)

  datatype Journal = Journal(manifests: map<Id, Manifest>, requests: map<string, Id>)

  /** Finished `.ts` files, hidden `.partial` files and the journal file. */
  datatype Disk = Disk(journal: Journal, media: map<Id, seq<Byte>>, partials: map<Id, seq<Byte>>)

  /** Where a capture task stands. */
  datatype Task =
    | Spawned
    | Marked
    | Capturing(content: seq<Byte>)
    | Moved(content: seq<Byte>)
    | Finished
    | Erring(code: string)

  datatype Limits = Limits(maxDuration: nat, maxBytes: nat, quota: nat, cameras: set<string>)

  /** `deleting` is the recording whose acknowledgement holds the lock; `up` is false between crash and reload. */
  datatype System = System(
    disk: Disk, memory: Journal, tasks: map<Id, Task>, deleting: Option<Id>, up: bool, issued: set<Id>)

  datatype EngineError =
    | RecordingInvalid | CameraNotFound | RecordingActive | RecordingCapacity | RecordingIo

  predicate Active(m: Manifest) {
    m.status == Pending || m.status == Recording
  }

  function Failure(m: Manifest, code: string): Manifest {
    m.(status := Failed, error := Some(code))
  }

  // ---------- sums over the spool

  ghost function Spool(media: map<Id, seq<Byte>>): nat
    decreases |media|
  {
    if media == map[] then 0
    else
      var id :| id in media;
      |media[id]| + Spool(media - {id})
  }

  lemma {:induction false} SpoolWithout(media: map<Id, seq<Byte>>, id: Id)
    requires id in media
    ensures Spool(media) == |media[id]| + Spool(media - {id})
    decreases |media|
  {
    var first :| first in media && Spool(media) == |media[first]| + Spool(media - {first});
    if first != id {
      SpoolWithout(media - {first}, id);
      SpoolWithout(media - {id}, first);
      assert media - {first} - {id} == media - {id} - {first};
    }
  }

  lemma SpoolWith(media: map<Id, seq<Byte>>, id: Id, content: seq<Byte>)
    requires id !in media
    ensures Spool(media[id := content]) == Spool(media) + |content|
  {
    SpoolWithout(media[id := content], id);
    assert media[id := content] - {id} == media;
  }

  // ---------- admission

  predicate CameraBusy(memory: Journal, camera: string) {
    exists id :: id in memory.manifests && memory.manifests[id].camera == camera && Active(memory.manifests[id])
  }

  ghost function StartError(s: System, l: Limits, camera: string, duration: nat, request: string): Option<EngineError> {
    if !(1 <= duration <= l.maxDuration) || !(8 <= |request| <= 128) then Some(RecordingInvalid)
    else if camera !in l.cameras then Some(CameraNotFound)
    else if request in s.memory.requests then
      var id := s.memory.requests[request];
      if id in s.memory.manifests && s.memory.manifests[id].camera == camera
         && s.memory.manifests[id].duration == duration
      then None else Some(RecordingInvalid)
    else if CameraBusy(s.memory, camera) then Some(RecordingActive)
    else if Spool(s.disk.media) + l.maxBytes > l.quota then Some(RecordingCapacity)
    else None
  }

  // ---------- steps

  /** A journal write either replaces the file and is synced, or fails before or after the replacement. */
  datatype Persist = Synced | Refused | Unsynced

  datatype Step =
    | Start(camera: string, duration: nat, request: string, motion: bool, now: nat, newId: Id,
            persist: Persist, spawned: bool)
    | MarkRecording(id: Id, persist: Persist)
    | OpenPartial(id: Id, ok: bool)
    | Append(id: Id, frame: seq<Byte>)
    | Rename(id: Id)
    | MarkReady(id: Id, persist: Persist)
    | Flush(id: Id, persist: Persist)
    | Abort(id: Id, code: string, removed: bool)
    | MarkFailed(id: Id, persist: Persist)
    | Delete(id: Id)
    | Forget(id: Id, persist: Persist)
    | GiveUp(id: Id)
    | Crash
    | Sweep(id: Id)
    | Reload(persist: Persist)

  function Persisted(s: System, persist: Persist): System {
    if persist.Refused? then s else s.(disk := s.disk.(journal := s.memory))
  }

  function TaskAt(s: System, id: Id, t: Task): System {
    s.(tasks := s.tasks[id := t])
  }

  /** The lock over the in-memory journal is free. */
  predicate Unlocked(s: System) {
    s.up && s.deleting.None?
  }

  function RecoveredManifest(m: Manifest, hasFile: bool): Manifest {
    if Active(m) then Failure(m, "interrupted")
    else if m.status == Ready && !hasFile then Failure(m, "missing_media").(bytes := None, digest := None)
    else m
  }

  function Recovered(disk: Disk): Journal {
    disk.journal.(manifests :=
      map id | id in disk.journal.manifests :: RecoveredManifest(disk.journal.manifests[id], id in disk.media))
  }

  /** Whether the code can take a step in a state. */
  ghost predicate Enabled(s: System, l: Limits, step: Step) {
    match step
    case Start(camera, duration, request, motion, now, newId, persist, spawned) =>
      Unlocked(s) && newId !in s.issued
    case MarkRecording(id, _) => Unlocked(s) && id in s.tasks && s.tasks[id] == Spawned
    case OpenPartial(id, ok) => s.up && id in s.tasks && s.tasks[id] == Marked && (ok ==> id !in s.disk.partials)
    case Append(id, frame) =>
      && s.up && id in s.tasks && s.tasks[id].Capturing?
      && frame != [] && frame[0] == MPEG_TS_SYNC && |s.tasks[id].content| + |frame| <= l.maxBytes
    case Rename(id) => s.up && id in s.tasks && s.tasks[id].Capturing? && s.tasks[id].content != []
    case Flush(id, _) => Unlocked(s) && id in s.tasks && s.tasks[id].Finished?
    case MarkReady(id, _) => Unlocked(s) && id in s.tasks && s.tasks[id].Moved?
    case Abort(id, _, _) => s.up && id in s.tasks && (s.tasks[id].Capturing? || s.tasks[id].Moved?)
    case MarkFailed(id, _) => Unlocked(s) && id in s.tasks && s.tasks[id].Erring?
    case Delete(id) => Unlocked(s) && id in s.memory.manifests && !Active(s.memory.manifests[id])
    case Forget(id, _) => s.up && s.deleting == Some(id)
    case GiveUp(id) => s.up && s.deleting == Some(id)
    case Crash => true
    case Sweep(id) => !s.up && id in s.disk.partials
    case Reload(_) => !s.up && s.disk.partials == map[]
  }

  ghost function Next(s: System, l: Limits, step: Step): System
    requires Enabled(s, l, step)
  {
    match step
    case Start(camera, duration, request, motion, now, newId, persist, spawned) =>
      if StartError(s, l, camera, duration, request).Some? || request in s.memory.requests then s
      else
        var m := Manifest(camera, Pending, now, duration, motion, None, None, None);
        var recorded := s.(memory := Journal(s.memory.manifests[newId := m], s.memory.requests[request := newId]),
                           issued := s.issued + {newId});
        var saved := Persisted(recorded, persist);
        if persist.Synced? && spawned then TaskAt(saved, newId, Spawned) else saved
    case MarkRecording(id, persist) =>
      if id !in s.memory.manifests then TaskAt(s, id, Erring("invalid_media"))
      else
        var m := s.memory.manifests[id].(status := Recording);
        var saved := Persisted(s.(memory := s.memory.(manifests := s.memory.manifests[id := m])), persist);
        TaskAt(saved, id, if persist.Synced? then Marked else Erring("upstream_failure"))
    case OpenPartial(id, ok) =>
      if ok then TaskAt(s.(disk := s.disk.(partials := s.disk.partials[id := []])), id, Capturing([]))
      else TaskAt(s, id, Erring("upstream_failure"))
    case Append(id, frame) =>
      var content := s.tasks[id].content;
      TaskAt(s.(disk := s.disk.(partials := s.disk.partials[id := content + frame])), id, Capturing(content + frame))
    case Rename(id) =>
      if id !in s.disk.partials then s
      else
        TaskAt(s.(disk := s.disk.(media := s.disk.media[id := s.disk.partials[id]],
                                  partials := s.disk.partials - {id})),
               id, Moved(s.tasks[id].content))
    case MarkReady(id, persist) =>
      if id !in s.memory.manifests then TaskAt(s, id, Erring("invalid_media"))
      else
        var content := s.tasks[id].content;
        var m := s.memory.manifests[id].(status := Ready, bytes := Some(|content|), digest := Some(content),
                                         error := None);
        var saved := Persisted(s.(memory := s.memory.(manifests := s.memory.manifests[id := m])), persist);
        TaskAt(saved, id, if persist.Synced? then Finished else Erring("upstream_failure"))
    case Flush(id, persist) =>
      var done := s.(tasks := s.tasks - {id});
      if id in s.memory.manifests then Persisted(done, persist) else done
    case Abort(id, code, removed) =>
      TaskAt(if removed then s.(disk := s.disk.(partials := s.disk.partials - {id})) else s, id, Erring(code))
    case MarkFailed(id, persist) =>
      var done := s.(tasks := s.tasks - {id});
      if id !in s.memory.manifests then done
      else
        var m := Failure(s.memory.manifests[id], s.tasks[id].code);
        Persisted(done.(memory := s.memory.(manifests := s.memory.manifests[id := m])), persist)
    case Delete(id) => s.(disk := s.disk.(media := s.disk.media - {id}), deleting := Some(id))
    case Forget(id, persist) =>
      var kept := map r | r in s.memory.requests && s.memory.requests[r] != id :: s.memory.requests[r];
      Persisted(s.(memory := Journal(s.memory.manifests - {id}, kept), deleting := None), persist)
    case GiveUp(id) => s.(deleting := None)
    case Crash => s.(tasks := map[], deleting := None, up := false)
    case Sweep(id) => s.(disk := s.disk.(partials := s.disk.partials - {id}))
    case Reload(persist) =>
      var memory := Recovered(s.disk);
      var disk := if persist.Refused? then s.disk else s.disk.(journal := memory);
      if persist.Synced? then s.(memory := memory, disk := disk, up := true) else s.(disk := disk)
  }

  /** A step the code cannot take leaves the system as it is. */
  ghost function Act(s: System, l: Limits, step: Step): System {
    if Enabled(s, l, step) then Next(s, l, step) else s
  }

  ghost function Run(s: System, l: Limits, steps: seq<Step>): System
    decreases |steps|
  {
    if steps == [] then s else Run(Act(s, l, steps[0]), l, steps[1..])
  }

  const NOTHING: Journal := Journal(map[], map[])
  const EMPTY: System := System(Disk(NOTHING, map[], map[]), NOTHING, map[], None, true, {})

  // ---------- the invariant

  /** Request ids name recordings of the same journal, no two the same one. */
  ghost predicate Mapped(j: Journal) {
    && (forall r :: r in j.requests ==> j.requests[r] in j.manifests)
    && (forall r, q :: r in j.requests && q in j.requests && j.requests[r] == j.requests[q] ==> r == q)
  }

  /** A ready manifest describes exactly the media file, whenever that file is there. */
  ghost predicate Described(j: Journal, media: map<Id, seq<Byte>>) {
    forall id :: id in j.manifests && id in media && j.manifests[id].status == Ready ==>
      j.manifests[id].bytes == Some(|media[id]|) && j.manifests[id].digest == Some(media[id])
  }

  ghost predicate OnePerCamera(j: Journal, cameras: set<string>) {
    && (forall id :: id in j.manifests && Active(j.manifests[id]) ==> j.manifests[id].camera in cameras)
    && (forall id, other ::
          (id in j.manifests && other in j.manifests
           && Active(j.manifests[id]) && Active(j.manifests[other])
           && j.manifests[id].camera == j.manifests[other].camera) ==> id == other)
  }

  /** A task that has not reported yet belongs to a journaled active recording; its bytes are where it left them. */
  ghost predicate TaskSound(s: System, l: Limits, id: Id)
    requires id in s.tasks
  {
    var t := s.tasks[id];
    t.Finished? || t.Erring?
    || (&& id in s.memory.manifests && Active(s.memory.manifests[id])
        && id in s.disk.journal.manifests && Active(s.disk.journal.manifests[id])
        && (match t
            case Capturing(content) =>
              id !in s.disk.media && id in s.disk.partials && s.disk.partials[id] == content && |content| <= l.maxBytes
            case Moved(content) => id in s.disk.media && s.disk.media[id] == content
            case _ => id !in s.disk.media))
  }

  ghost predicate AllIssued(s: System) {
    && s.memory.manifests.Keys <= s.issued
    && s.disk.journal.manifests.Keys <= s.issued
    && s.disk.media.Keys <= s.issued
    && s.tasks.Keys <= s.issued
  }

  /** Active recordings that have no media file yet: each may still add up to `maxBytes`. */
  ghost function Waiting(s: System): set<Id> {
    set id | id in s.memory.manifests && Active(s.memory.manifests[id]) && id !in s.disk.media
  }

  /** Space in use plus space promised. */
  ghost function Committed(s: System, l: Limits): int {
    Spool(s.disk.media) + l.maxBytes * |if s.up then Waiting(s) else {}|
  }

  ghost predicate Bounded(s: System, l: Limits) {
    Committed(s, l) <= l.quota + (|l.cameras| - 1) * l.maxBytes
  }

  ghost predicate JournalSound(j: Journal, media: map<Id, seq<Byte>>) {
    media.Keys <= j.manifests.Keys && Mapped(j) && Described(j, media)
  }

  ghost predicate TasksSound(s: System, l: Limits) {
    forall id :: id in s.tasks ==> TaskSound(s, l, id)
  }

  ghost predicate DeletingSound(s: System) {
    s.deleting.Some? ==>
      && s.deleting.value !in s.disk.media
      && (s.deleting.value in s.memory.manifests ==> !Active(s.memory.manifests[s.deleting.value]))
  }

  ghost predicate Inv(s: System, l: Limits) {
    && JournalSound(s.disk.journal, s.disk.media)
    && AllIssued(s)
    && Bounded(s, l)
    && (s.up ==>
          && JournalSound(s.memory, s.disk.media)
          && OnePerCamera(s.memory, l.cameras)
          && TasksSound(s, l)
          && DeletingSound(s))
    && (!s.up ==> s.tasks == map[] && s.deleting.None?)
  }

  // ---------- every step keeps the invariant

  lemma {:induction false} DistinctCameras(j: Journal, ids: set<Id>, cameras: set<string>)
    requires forall id :: id in ids ==> id in j.manifests && j.manifests[id].camera in cameras
    requires forall id, other ::
               (id in ids && other in ids && j.manifests[id].camera == j.manifests[other].camera) ==> id == other
    ensures |ids| <= |cameras|
    decreases |ids|
  {
    if ids != {} {
      var id :| id in ids;
      DistinctCameras(j, ids - {id}, cameras - {j.manifests[id].camera});
    }
  }

  /** With its camera idle, a new recording finds at most |cameras| - 1 others waiting. */
  lemma OthersWaiting(s: System, l: Limits, camera: string)
    requires OnePerCamera(s.memory, l.cameras) && camera in l.cameras && !CameraBusy(s.memory, camera)
    ensures |Waiting(s)| <= |l.cameras| - 1
  {
    forall id | id in Waiting(s)
      ensures s.memory.manifests[id].camera in l.cameras - {camera}
    {
    }
    DistinctCameras(s.memory, Waiting(s), l.cameras - {camera});
  }

  lemma SmallerIsBounded(s: System, t: System, l: Limits)
    requires Bounded(s, l) && Spool(t.disk.media) <= Spool(s.disk.media)
    requires (t.up ==> s.up) && (t.up ==> Waiting(t) <= Waiting(s))
    ensures Bounded(t, l)
  {
    var before, after := if s.up then Waiting(s) else {}, if t.up then Waiting(t) else {};
    SubsetIsSmaller(after, before);
    assert l.maxBytes * |after| <= l.maxBytes * |before|;
  }

  lemma PersistKeeps(s: System, l: Limits, persist: Persist)
    requires Inv(s, l) && s.up
    ensures Inv(Persisted(s, persist), l)
  {
    hide Mapped, Described, OnePerCamera, Spool;
    var t := Persisted(s, persist);
    SmallerIsBounded(s, t, l);
    forall id | id in t.tasks
      ensures TaskSound(t, l, id)
    {
      assert TaskSound(s, l, id);
    }
  }

  lemma TaskKeeps(s: System, l: Limits, id: Id, t: Task)
    requires Inv(s, l) && s.up && id in s.issued && TaskSound(TaskAt(s, id, t), l, id)
    ensures Inv(TaskAt(s, id, t), l)
  {
    hide Mapped, Described, OnePerCamera, Spool;
    var after := TaskAt(s, id, t);
    SmallerIsBounded(s, after, l);
    forall other | other in after.tasks
      ensures TaskSound(after, l, other)
    {
      assert other != id ==> TaskSound(s, l, other);
    }
  }

  lemma TaskGoneKeeps(s: System, l: Limits, id: Id)
    requires Inv(s, l) && s.up
    ensures Inv(s.(tasks := s.tasks - {id}), l)
  {
    hide Mapped, Described, OnePerCamera, Spool;
    var after := s.(tasks := s.tasks - {id});
    SmallerIsBounded(s, after, l);
    forall other | other in after.tasks
      ensures TaskSound(after, l, other)
    {
      assert TaskSound(s, l, other);
    }
  }

  /** Whether a task of this recording still has to report. */
  predicate Reporting(s: System, id: Id) {
    id in s.tasks && !s.tasks[id].Finished? && !s.tasks[id].Erring?
  }

  function WithManifest(s: System, id: Id, m: Manifest): System {
    s.(memory := s.memory.(manifests := s.memory.manifests[id := m]))
  }

  lemma RewrittenJournal(j: Journal, media: map<Id, seq<Byte>>, id: Id, m: Manifest, cameras: set<string>)
    requires JournalSound(j, media) && OnePerCamera(j, cameras)
    requires id in j.manifests && m.camera == j.manifests[id].camera && (Active(m) ==> Active(j.manifests[id]))
    requires id in media && m.status == Ready ==> m.bytes == Some(|media[id]|) && m.digest == Some(media[id])
    ensures var k := j.(manifests := j.manifests[id := m]); JournalSound(k, media) && OnePerCamera(k, cameras)
  {
    var k := j.(manifests := j.manifests[id := m]);
    assert k.manifests.Keys == j.manifests.Keys;
  }

  /** Rewriting the manifest of a known recording without making it active again. */
  lemma ManifestKeeps(s: System, l: Limits, id: Id, m: Manifest)
    requires Inv(s, l) && s.up && id in s.memory.manifests && m.camera == s.memory.manifests[id].camera
    requires Active(m) ==> Active(s.memory.manifests[id])
    requires Reporting(s, id) ==> Active(m)
    requires id in s.disk.media && m.status == Ready ==>
               m.bytes == Some(|s.disk.media[id]|) && m.digest == Some(s.disk.media[id])
    ensures Inv(WithManifest(s, id, m), l)
  {
    hide Spool, JournalSound, OnePerCamera, Active;
    var t := WithManifest(s, id, m);
    assert t.memory.manifests.Keys == s.memory.manifests.Keys;
    SmallerIsBounded(s, t, l);
    RewrittenJournal(s.memory, s.disk.media, id, m, l.cameras);
    forall other | other in t.tasks
      ensures TaskSound(t, l, other)
    {
      assert TaskSound(s, l, other);
    }
  }

  function WithRecording(s: System, id: Id, m: Manifest, request: string): System {
    s.(memory := Journal(s.memory.manifests[id := m], s.memory.requests[request := id]), issued := s.issued + {id})
  }

  lemma ExtendedJournal(j: Journal, media: map<Id, seq<Byte>>, id: Id, m: Manifest, request: string,
                        cameras: set<string>)
    requires JournalSound(j, media) && OnePerCamera(j, cameras)
    requires id !in j.manifests && request !in j.requests && id !in media
    requires m.camera in cameras && !CameraBusy(j, m.camera)
    ensures var k := Journal(j.manifests[id := m], j.requests[request := id]);
            JournalSound(k, media) && OnePerCamera(k, cameras)
  {
    var k := Journal(j.manifests[id := m], j.requests[request := id]);
    assert k.manifests.Keys == j.manifests.Keys + {id};
    assert Mapped(k);
  }

  lemma WaitingGrows(s: System, id: Id, m: Manifest, request: string)
    requires id !in s.memory.manifests && id !in s.disk.media && Active(m)
    ensures Waiting(WithRecording(s, id, m, request)) == Waiting(s) + {id} && id !in Waiting(s)
  {
  }

  lemma OneMoreIsBounded(s: System, l: Limits, id: Id, m: Manifest, request: string)
    requires OnePerCamera(s.memory, l.cameras) && id !in s.memory.manifests && id !in s.disk.media && Active(m)
    requires m.camera in l.cameras && !CameraBusy(s.memory, m.camera)
    requires Spool(s.disk.media) + l.maxBytes <= l.quota
    ensures Bounded(WithRecording(s, id, m, request), l)
  {
    hide Spool, OnePerCamera, CameraBusy, Waiting;
    OthersWaiting(s, l, m.camera);
    WaitingGrows(s, id, m, request);
    OneMoreFits(Spool(s.disk.media), l.maxBytes, l.quota, |Waiting(s)|, |l.cameras|);
  }

  lemma OneMoreFits(spool: nat, maxBytes: nat, quota: nat, waiting: nat, cameras: nat)
    requires spool + maxBytes <= quota && waiting <= cameras - 1
    ensures spool + maxBytes * (waiting + 1) <= quota + (cameras - 1) * maxBytes
  {
    assert maxBytes * (waiting + 1) == maxBytes * waiting + maxBytes;
    assert maxBytes * waiting <= maxBytes * (cameras - 1);
  }

  lemma RecordingKeeps(s: System, l: Limits, id: Id, m: Manifest, request: string)
    requires Inv(s, l) && Unlocked(s) && id !in s.issued && request !in s.memory.requests
    requires m.status == Pending && m.camera in l.cameras && !CameraBusy(s.memory, m.camera)
    requires Spool(s.disk.media) + l.maxBytes <= l.quota
    ensures Inv(WithRecording(s, id, m, request), l)
  {
    OneMoreIsBounded(s, l, id, m, request);
    hide Spool, JournalSound, OnePerCamera, CameraBusy, Bounded;
    var t := WithRecording(s, id, m, request);
    ExtendedJournal(s.memory, s.disk.media, id, m, request, l.cameras);
    forall other | other in t.tasks
      ensures TaskSound(t, l, other)
    {
      assert TaskSound(s, l, other);
    }
  }

  lemma StartKeeps(s: System, l: Limits, step: Step)
    requires Inv(s, l) && step.Start? && Enabled(s, l, step)
    ensures Inv(Next(s, l, step), l)
  {
    hide Inv, Spool;
    if StartError(s, l, step.camera, step.duration, step.request).None? && step.request !in s.memory.requests {
      var m := Manifest(step.camera, Pending, step.now, step.duration, step.motion, None, None, None);
      RecordingKeeps(s, l, step.newId, m, step.request);
      var recorded := WithRecording(s, step.newId, m, step.request);
      PersistKeeps(recorded, l, step.persist);
      var saved := Persisted(recorded, step.persist);
      if step.persist.Synced? && step.spawned {
        NewRecordingHasNoMedia(s, l, step.newId);
        TaskKeeps(saved, l, step.newId, Spawned);
      }
    }
  }

  lemma NewRecordingHasNoMedia(s: System, l: Limits, id: Id)
    requires Inv(s, l) && id !in s.issued
    ensures id !in s.disk.media
  {
  }

  lemma MarkRecordingKeeps(s: System, l: Limits, step: Step)
    requires Inv(s, l) && step.MarkRecording? && Enabled(s, l, step)
    ensures Inv(Next(s, l, step), l)
  {
    hide Spool, JournalSound, OnePerCamera, Bounded;
    var id := step.id;
    assert TaskSound(s, l, id);
    var m := s.memory.manifests[id].(status := Recording);
    ManifestKeeps(s, l, id, m);
    var marked := WithManifest(s, id, m);
    PersistKeeps(marked, l, step.persist);
    TaskKeeps(Persisted(marked, step.persist), l, id,
                if step.persist.Synced? then Marked else Erring("upstream_failure"));
  }

  lemma MarkReadyKeeps(s: System, l: Limits, step: Step)
    requires Inv(s, l) && step.MarkReady? && Enabled(s, l, step)
    ensures Inv(Next(s, l, step), l)
  {
    hide Spool, JournalSound, OnePerCamera, Bounded;
    var id := step.id;
    assert TaskSound(s, l, id);
    var content := s.tasks[id].content;
    var m := s.memory.manifests[id].(status := Ready, bytes := Some(|content|), digest := Some(content), error := None);
    var reported := if step.persist.Synced? then Finished else Erring("upstream_failure");
    TaskKeeps(s, l, id, reported);
    var first := TaskAt(s, id, reported);
    ManifestKeeps(first, l, id, m);
    PersistKeeps(WithManifest(first, id, m), l, step.persist);
    assert Next(s, l, step) == Persisted(WithManifest(first, id, m), step.persist);
  }

  lemma MarkFailedKeeps(s: System, l: Limits, step: Step)
    requires Inv(s, l) && step.MarkFailed? && Enabled(s, l, step)
    ensures Inv(Next(s, l, step), l)
  {
    hide Spool, JournalSound, OnePerCamera, Bounded;
    var id := step.id;
    var done := s.(tasks := s.tasks - {id});
    TaskGoneKeeps(s, l, id);
    if id in s.memory.manifests {
      var m := Failure(s.memory.manifests[id], s.tasks[id].code);
      ManifestKeeps(done, l, id, m);
      PersistKeeps(WithManifest(done, id, m), l, step.persist);
    }
  }

  lemma FlushKeeps(s: System, l: Limits, step: Step)
    requires Inv(s, l) && step.Flush? && Enabled(s, l, step)
    ensures Inv(Next(s, l, step), l)
  {
    hide Spool, JournalSound, OnePerCamera, Bounded;
    TaskGoneKeeps(s, l, step.id);
    PersistKeeps(s.(tasks := s.tasks - {step.id}), l, step.persist);
  }

  /** Writing or removing the hidden partial of one recording while its task moves on. */
  lemma PartialKeeps(s: System, l: Limits, id: Id, partials: map<Id, seq<Byte>>, t: Task)
    requires Inv(s, l) && s.up && id in s.tasks
    requires forall other :: other != id ==>
               (other in partials <==> other in s.disk.partials)
               && (other in partials ==> partials[other] == s.disk.partials[other])
    requires TaskSound(TaskAt(s.(disk := s.disk.(partials := partials)), id, t), l, id)
    ensures Inv(TaskAt(s.(disk := s.disk.(partials := partials)), id, t), l)
  {
    hide Spool, JournalSound, OnePerCamera;
    var after := TaskAt(s.(disk := s.disk.(partials := partials)), id, t);
    SmallerIsBounded(s, after, l);
    forall other | other in after.tasks
      ensures TaskSound(after, l, other)
    {
      assert other != id ==> TaskSound(s, l, other);
    }
  }

  lemma CaptureKeeps(s: System, l: Limits, step: Step)
    requires Inv(s, l) && (step.OpenPartial? || step.Append? || step.Abort?) && Enabled(s, l, step)
    ensures Inv(Next(s, l, step), l)
  {
    hide Spool, JournalSound, OnePerCamera, Bounded;
    var id := step.id;
    assert TaskSound(s, l, id);
    match step {
      case OpenPartial(_, ok) =>
        if ok {
          PartialKeeps(s, l, id, s.disk.partials[id := []], Capturing([]));
        } else {
          TaskKeeps(s, l, id, Erring("upstream_failure"));
        }
      case Append(_, frame) =>
        var content := s.tasks[id].content + frame;
        PartialKeeps(s, l, id, s.disk.partials[id := content], Capturing(content));
      case Abort(_, code, removed) =>
        PartialKeeps(s, l, id, if removed then s.disk.partials - {id} else s.disk.partials, Erring(code));
        assert !removed ==> s.(disk := s.disk.(partials := s.disk.partials)) == s;
      case _ =>
    }
  }

  lemma OneFewerFits(spool: nat, maxBytes: nat, size: nat, waiting: nat)
    requires size <= maxBytes && waiting >= 1
    ensures spool + size + maxBytes * (waiting - 1) <= spool + maxBytes * waiting
  {
    assert maxBytes * waiting == maxBytes * (waiting - 1) + maxBytes;
  }

  lemma RenameIsBounded(s: System, t: System, l: Limits, id: Id, content: seq<Byte>)
    requires s.up && t.up && Bounded(s, l) && t.memory == s.memory && |content| <= l.maxBytes
    requires id in Waiting(s) && t.disk.media == s.disk.media[id := content]
    ensures Bounded(t, l)
  {
    hide Spool;
    SpoolWith(s.disk.media, id, content);
    assert Waiting(t) == Waiting(s) - {id};
    OneFewerFits(Spool(s.disk.media), l.maxBytes, |content|, |Waiting(s)|);
  }

  lemma MediaAdded(j: Journal, media: map<Id, seq<Byte>>, id: Id, content: seq<Byte>)
    requires JournalSound(j, media) && id in j.manifests && Active(j.manifests[id])
    ensures JournalSound(j, media[id := content])
  {
  }

  lemma MediaRemoved(j: Journal, media: map<Id, seq<Byte>>, id: Id)
    requires JournalSound(j, media)
    ensures JournalSound(j, media - {id})
  {
  }

  lemma RenameKeeps(s: System, l: Limits, step: Step)
    requires Inv(s, l) && step.Rename? && Enabled(s, l, step)
    ensures Inv(Next(s, l, step), l)
  {
    hide Spool, Bounded, OnePerCamera, JournalSound;
    var id := step.id;
    assert TaskSound(s, l, id);
    var t, content := Next(s, l, step), s.tasks[id].content;
    RenameIsBounded(s, t, l, id, content);
    MediaAdded(s.memory, s.disk.media, id, content);
    MediaAdded(s.disk.journal, s.disk.media, id, content);
    forall other | other in t.tasks
      ensures TaskSound(t, l, other)
    {
      assert other != id ==> TaskSound(s, l, other);
    }
  }

  lemma SpoolShrinks(media: map<Id, seq<Byte>>, id: Id)
    ensures Spool(media - {id}) <= Spool(media)
  {
    if id in media {
      SpoolWithout(media, id);
    } else {
      assert media - {id} == media;
    }
  }

  lemma DeleteKeeps(s: System, l: Limits, step: Step)
    requires Inv(s, l) && step.Delete? && Enabled(s, l, step)
    ensures Inv(Next(s, l, step), l)
  {
    hide Spool, OnePerCamera, JournalSound;
    var id, t := step.id, Next(s, l, step);
    SpoolShrinks(s.disk.media, id);
    MediaRemoved(s.memory, s.disk.media, id);
    MediaRemoved(s.disk.journal, s.disk.media, id);
    SmallerIsBounded(s, t, l);
    forall other | other in t.tasks
      ensures TaskSound(t, l, other)
    {
      assert TaskSound(s, l, other);
    }
  }

  lemma ForgottenJournal(j: Journal, media: map<Id, seq<Byte>>, id: Id, cameras: set<string>)
    requires JournalSound(j, media) && OnePerCamera(j, cameras) && id !in media
    ensures var k := Journal(j.manifests - {id}, map r | r in j.requests && j.requests[r] != id :: j.requests[r]);
            JournalSound(k, media) && OnePerCamera(k, cameras)
  {
  }

  lemma ForgetKeeps(s: System, l: Limits, step: Step)
    requires Inv(s, l) && step.Forget? && Enabled(s, l, step)
    ensures Inv(Next(s, l, step), l)
  {
    hide Spool, JournalSound, OnePerCamera;
    var id := step.id;
    var kept := map r | r in s.memory.requests && s.memory.requests[r] != id :: s.memory.requests[r];
    var t := s.(memory := Journal(s.memory.manifests - {id}, kept), deleting := None);
    ForgottenJournal(s.memory, s.disk.media, id, l.cameras);
    SmallerIsBounded(s, t, l);
    forall other | other in t.tasks
      ensures TaskSound(t, l, other)
    {
      assert TaskSound(s, l, other);
    }
    PersistKeeps(t, l, step.persist);
  }

  /**
   * Recovery keeps every manifest and request, ends every interrupted recording and keeps a ready one only with its
   * file.
   */
  lemma RecoveredEntries(disk: Disk)
    ensures var r := Recovered(disk);
            && r.manifests.Keys == disk.journal.manifests.Keys
            && r.requests == disk.journal.requests
            && (forall id :: id in r.manifests ==> !Active(r.manifests[id]))
            && (forall id :: id in r.manifests && r.manifests[id].status == Ready ==>
                  id in disk.media && r.manifests[id] == disk.journal.manifests[id])
  {
  }

  lemma RecoveredJournal(disk: Disk, cameras: set<string>)
    requires JournalSound(disk.journal, disk.media)
    ensures JournalSound(Recovered(disk), disk.media) && OnePerCamera(Recovered(disk), cameras)
  {
    RecoveredEntries(disk);
    hide Recovered;
  }

  lemma QuietKeeps(s: System, l: Limits, step: Step)
    requires Inv(s, l) && (step.GiveUp? || step.Crash? || step.Sweep? || step.Reload?) && Enabled(s, l, step)
    ensures Inv(Next(s, l, step), l)
  {
    hide Spool, JournalSound, OnePerCamera;
    var t := Next(s, l, step);
    if step.Reload? {
      RecoveredJournal(s.disk, l.cameras);
      RecoveredEntries(s.disk);
      assert t.up ==> Waiting(t) == {};
      assert Bounded(s, l) && !s.up;
      assert t.up ==> l.maxBytes * |Waiting(t)| == 0;
    } else {
      SmallerIsBounded(s, t, l);
      forall other | t.up && other in t.tasks
        ensures TaskSound(t, l, other)
      {
        assert TaskSound(s, l, other);
      }
    }
  }

  lemma StepKeeps(s: System, l: Limits, step: Step)
    requires Inv(s, l)
    ensures Inv(Act(s, l, step), l)
  {
    hide Inv, Next, Enabled;
    if Enabled(s, l, step) {
      match step {
        case Start(_, _, _, _, _, _, _, _) => StartKeeps(s, l, step);
        case MarkRecording(_, _) => MarkRecordingKeeps(s, l, step);
        case OpenPartial(_, _) => CaptureKeeps(s, l, step);
        case Append(_, _) => CaptureKeeps(s, l, step);
        case Abort(_, _, _) => CaptureKeeps(s, l, step);
        case Rename(_) => RenameKeeps(s, l, step);
        case MarkReady(_, _) => MarkReadyKeeps(s, l, step);
        case Flush(_, _) => FlushKeeps(s, l, step);
        case MarkFailed(_, _) => MarkFailedKeeps(s, l, step);
        case Delete(_) => DeleteKeeps(s, l, step);
        case Forget(_, _) => ForgetKeeps(s, l, step);
        case _ => QuietKeeps(s, l, step);
      }
    }
  }

  lemma {:induction false} RunKeeps(s: System, l: Limits, steps: seq<Step>)
    requires Inv(s, l)
    ensures Inv(Run(s, l, steps), l)
    decreases |steps|
  {
    hide Inv, Act;
    if steps != [] {
      StepKeeps(s, l, steps[0]);
      RunKeeps(Act(s, l, steps[0]), l, steps[1..]);
    }
  }

  // ---------- what holds in every reachable state

  lemma EmptyIsSound(l: Limits)
    requires l.cameras != {}
    ensures Inv(EMPTY, l)
  {
    assert Waiting(EMPTY) == {};
    assert |l.cameras| >= 1;
    assert (|l.cameras| - 1) * l.maxBytes >= 0;
    assert l.maxBytes * |Waiting(EMPTY)| == 0;
  }

  /**
   * In every state that any interleaving of requests, captures, failures and crashes reaches: media files are
   * named by the journal, at most one recording per camera is active, and space in use plus space promised
   * stays within the quota and one recording for each further camera.
   */
  lemma SpoolIsSafe(l: Limits, steps: seq<Step>)
    requires l.cameras != {}
    ensures var s := Run(EMPTY, l, steps);
            && s.disk.media.Keys <= s.disk.journal.manifests.Keys
            && (s.up ==> OnePerCamera(s.memory, l.cameras))
            && Committed(s, l) <= l.quota + (|l.cameras| - 1) * l.maxBytes
  {
    hide Run;
    EmptyIsSound(l);
    RunKeeps(EMPTY, l, steps);
  }

  // ---------- crash and reload

  /** No recording is left running, no partial remains, and a ready recording has exactly its file. */
  ghost predicate Clean(s: System) {
    && s.up && s.tasks == map[] && s.deleting.None?
    && s.memory == s.disk.journal && s.disk.partials == map[]
    && (forall id :: id in s.memory.manifests ==> !Active(s.memory.manifests[id]))
    && (forall id :: id in s.memory.manifests && s.memory.manifests[id].status == Ready ==>
          && id in s.disk.media
          && s.memory.manifests[id].bytes == Some(|s.disk.media[id]|)
          && s.memory.manifests[id].digest == Some(s.disk.media[id]))
  }

  /** A crash, the removal of every partial, and the reload of the journal. */
  function AfterCrash(s: System): System {
    var disk := s.disk.(partials := map[]);
    var memory := Recovered(disk);
    System(disk.(journal := memory), memory, map[], None, true, s.issued)
  }

  /** The steps of a reload reach that state whatever order the partials are removed in. */
  lemma {:induction false} SweepThenReload(s: System, l: Limits, order: seq<Id>)
    requires !s.up && s.tasks == map[] && s.deleting.None?
    requires forall id :: id in s.disk.partials ==> id in order
    ensures Act(Run(s, l, Sweeps(order)), l, Reload(Synced)) == AfterCrash(s)
    decreases |order|
  {
    if order == [] {
      assert s.disk.partials == map[];
      assert s.disk.(partials := map[]) == s.disk;
    } else {
      var t := Act(s, l, Sweep(order[0]));
      assert t.disk.partials == s.disk.partials - {order[0]};
      SweepThenReload(t, l, order[1..]);
      assert t.disk.(partials := map[]) == s.disk.(partials := map[]);
      assert Sweeps(order)[0] == Sweep(order[0]) && Sweeps(order)[1..] == Sweeps(order[1..]);
    }
  }

  function Sweeps(order: seq<Id>): seq<Step> {
    if order == [] then [] else [Sweep(order[0])] + Sweeps(order[1..])
  }

  /** Whatever a crash interrupts, reloading leaves the spool clean, and doing it again changes nothing. */
  lemma RecoveryIsCleanAndIdempotent(s: System, l: Limits)
    requires Inv(s, l)
    ensures Clean(AfterCrash(s))
    ensures AfterCrash(s).disk.media == s.disk.media
    ensures AfterCrash(s).disk.journal.requests == s.disk.journal.requests
    ensures AfterCrash(AfterCrash(s)) == AfterCrash(s)
  {
    var disk := s.disk.(partials := map[]);
    RecoveredEntries(disk);
    RecoveredTwice(disk);
    hide Recovered;
  }

  lemma RecoveredManifestTwice(m: Manifest, hasFile: bool)
    ensures RecoveredManifest(RecoveredManifest(m, hasFile), hasFile) == RecoveredManifest(m, hasFile)
  {
  }

  lemma RecoveredTwice(disk: Disk)
    ensures Recovered(disk.(journal := Recovered(disk))) == Recovered(disk)
  {
    hide RecoveredManifest;
    var once := Recovered(disk);
    var twice := Recovered(disk.(journal := once));
    forall id | id in disk.journal.manifests
      ensures twice.manifests[id] == once.manifests[id]
    {
      RecoveredManifestTwice(disk.journal.manifests[id], id in disk.media);
    }
    assert twice.manifests == once.manifests;
  }

  /**
   * What a crash and the restart after it make of every recording: an interrupted one fails, a ready one stays exactly
   * as it was if its file is there and fails otherwise, a failed one stays. So a recording is ready afterwards iff it
   * was ready in the journal and has its file; no file and no request is touched.
   */
  lemma RestartDecides(s: System, l: Limits, order: seq<Id>)
    requires forall id :: id in s.disk.partials ==> id in order
    ensures var t := Act(Run(Act(s, l, Crash), l, Sweeps(order)), l, Reload(Synced));
            var before, after := s.disk.journal.manifests, t.memory.manifests;
            && t.up && after.Keys == before.Keys && t.memory.requests == s.disk.journal.requests
            && t.disk.journal == t.memory && t.disk.media == s.disk.media
            && (forall id :: id in before ==>
                  match before[id].status
                  case Pending => after[id] == before[id].(status := Failed, error := Some("interrupted"))
                  case Recording => after[id] == before[id].(status := Failed, error := Some("interrupted"))
                  case Ready =>
                    after[id] == (if id in s.disk.media then before[id]
                                  else before[id].(status := Failed, error := Some("missing_media"), bytes := None,
                                                   digest := None))
                  case Failed => after[id] == before[id])
            && (forall id :: id in before ==>
                  (after[id].status == Ready <==> before[id].status == Ready && id in s.disk.media))
  {
    SweepThenReload(Act(s, l, Crash), l, order);
    hide Run, Sweeps, Spool;
  }

  /** A step of a load while the engine is down; the load fails or goes on. */
  predicate Loads(step: Step) {
    step.Sweep? || (step.Reload? && !step.persist.Synced?)
  }

  /** Whatever loads fail, at whatever removal or journal write, the load that succeeds reaches the same state. */
  lemma {:induction false} FailedLoadsLoseNothing(s: System, l: Limits, steps: seq<Step>)
    requires !s.up && s.tasks == map[] && s.deleting.None? && forall step :: step in steps ==> Loads(step)
    ensures !Run(s, l, steps).up && AfterCrash(Run(s, l, steps)) == AfterCrash(s)
    ensures Run(s, l, steps).disk.media == s.disk.media
    decreases |steps|
  {
    if steps != [] {
      FailedLoadStep(s, l, steps[0]);
      hide AfterCrash, Act;
      FailedLoadsLoseNothing(Act(s, l, steps[0]), l, steps[1..]);
    }
  }

  lemma FailedLoadStep(s: System, l: Limits, step: Step)
    requires !s.up && s.tasks == map[] && s.deleting.None? && Loads(step)
    ensures var t := Act(s, l, step);
            && !t.up && t.tasks == map[] && t.deleting.None? && t.disk.media == s.disk.media
            && AfterCrash(t) == AfterCrash(s)
  {
    hide Recovered;
    RecoveredTwice(s.disk);
    if Enabled(s, l, step) && step.Sweep? {
      assert (s.disk.(partials := s.disk.partials - {step.id})).(partials := map[]) == s.disk.(partials := map[]);
    }
  }

  // ---------- idempotent requests

  /** The journal knows a request and the camera and duration it asked for. */
  ghost predicate Knows(j: Journal, request: string, id: Id, camera: string, duration: nat) {
    && request in j.requests && j.requests[request] == id
    && id in j.manifests && j.manifests[id].camera == camera && j.manifests[id].duration == duration
  }

  ghost predicate Remembers(s: System, request: string, id: Id, camera: string, duration: nat) {
    && Knows(s.disk.journal, request, id, camera, duration)
    && (s.up ==> Knows(s.memory, request, id, camera, duration))
  }

  lemma StepRemembers(s: System, l: Limits, step: Step, request: string, id: Id, camera: string, duration: nat)
    requires Inv(s, l) && Remembers(s, request, id, camera, duration)
    requires !(step.Forget? && step.id == id)
    ensures Remembers(Act(s, l, step), request, id, camera, duration)
  {
    hide Recovered, JournalSound, OnePerCamera, Bounded, TasksSound, Spool, StartError;
    if Enabled(s, l, step) {
      if step.Reload? {
        RecoveredKnows(s.disk, request, id, camera, duration);
      } else if s.up && !step.Crash? {
        MemoryRemembers(s, l, step, request, id, camera, duration);
        JournalIsOldOrMemory(s, l, step);
      }
    }
  }

  lemma MemoryRemembers(s: System, l: Limits, step: Step, request: string, id: Id, camera: string, duration: nat)
    requires Inv(s, l) && Enabled(s, l, step) && s.up && Knows(s.memory, request, id, camera, duration)
    requires !(step.Forget? && step.id == id) && !step.Reload? && !step.Crash?
    ensures Knows(Next(s, l, step).memory, request, id, camera, duration)
  {
    hide JournalSound, OnePerCamera, Bounded, TasksSound, Spool, StartError, DeletingSound;
  }

  /** A step of a running engine leaves the journal file alone or replaces it by the new memory. */
  lemma JournalIsOldOrMemory(s: System, l: Limits, step: Step)
    requires Enabled(s, l, step) && s.up
    ensures Next(s, l, step).disk.journal == s.disk.journal
            || Next(s, l, step).disk.journal == Next(s, l, step).memory
  {
    hide Spool, StartError;
  }

  lemma RecoveredKnows(disk: Disk, request: string, id: Id, camera: string, duration: nat)
    requires Knows(disk.journal, request, id, camera, duration)
    ensures Knows(Recovered(disk), request, id, camera, duration)
  {
  }

  lemma {:induction false} RunRemembers(
      s: System, l: Limits, steps: seq<Step>, request: string, id: Id, camera: string, duration: nat)
    requires Inv(s, l) && Remembers(s, request, id, camera, duration)
    requires forall step :: step in steps ==> !(step.Forget? && step.id == id)
    ensures Remembers(Run(s, l, steps), request, id, camera, duration)
    decreases |steps|
  {
    hide Inv, Remembers, Act;
    if steps != [] {
      StepKeeps(s, l, steps[0]);
      StepRemembers(s, l, steps[0], request, id, camera, duration);
      RunRemembers(Act(s, l, steps[0]), l, steps[1..], request, id, camera, duration);
    }
  }

  /**
   * A started request keeps its one recording over any run, crashes included, until that recording is
   * acknowledged: asking again is accepted and starts nothing.
   */
  lemma RepeatedRequestStartsNothing(s: System, l: Limits, first: Step, steps: seq<Step>, again: Step)
    requires Inv(s, l) && first.Start? && first.persist.Synced? && Enabled(s, l, first)
    requires StartError(s, l, first.camera, first.duration, first.request).None? && first.request !in s.memory.requests
    requires forall step :: step in steps ==> !(step.Forget? && step.id == first.newId)
    requires again.Start? && again.request == first.request
    requires again.camera == first.camera && again.duration == first.duration
    ensures var later := Run(Act(s, l, first), l, steps);
            later.up ==>
              && StartError(later, l, again.camera, again.duration, again.request).None?
              && again.request in later.memory.requests && later.memory.requests[again.request] == first.newId
              && Act(later, l, again) == later
  {
    hide Inv, Run, Spool, CameraBusy;
    var started := Act(s, l, first);
    assert Remembers(started, first.request, first.newId, first.camera, first.duration);
    StepKeeps(s, l, first);
    RunRemembers(started, l, steps, first.request, first.newId, first.camera, first.duration);
  }

  // ---------- a journal write that fails while a recording starts

  /** A pending recording that no task will ever pick up. */
  ghost predicate Stuck(s: System, id: Id) {
    s.up && id in s.memory.manifests && s.memory.manifests[id].status == Pending && id !in s.tasks
    && s.deleting != Some(id)
  }

  lemma StepKeepsStuck(s: System, l: Limits, step: Step, id: Id)
    requires Inv(s, l) && Stuck(s, id) && !step.Crash?
    ensures Stuck(Act(s, l, step), id)
    ensures Act(s, l, step).memory.manifests[id].camera == s.memory.manifests[id].camera
  {
    hide JournalSound, OnePerCamera, Bounded, TasksSound, Spool, StartError;
  }

  /**
   * A start whose journal write fails leaves its recording pending without a task, so its camera refuses
   * every new request until the engine restarts.
   */
  lemma {:induction false} FailedStartBlocksTheCamera(s: System, l: Limits, steps: seq<Step>, id: Id)
    requires Inv(s, l) && Stuck(s, id)
    requires forall step :: step in steps ==> !step.Crash?
    ensures Stuck(Run(s, l, steps), id) && CameraBusy(Run(s, l, steps).memory, s.memory.manifests[id].camera)
    decreases |steps|
  {
    hide Inv, Act;
    if steps != [] {
      StepKeeps(s, l, steps[0]);
      StepKeepsStuck(s, l, steps[0], id);
      FailedStartBlocksTheCamera(Act(s, l, steps[0]), l, steps[1..], id);
    }
  }

  /** A new recording gets its task iff the journal write is synced and its caller lives to spawn it. */
  lemma StartIsStuckIff(s: System, l: Limits, step: Step)
    requires Inv(s, l) && step.Start? && Enabled(s, l, step)
    requires StartError(s, l, step.camera, step.duration, step.request).None? && step.request !in s.memory.requests
    ensures Stuck(Act(s, l, step), step.newId) <==> !(step.persist.Synced? && step.spawned)
  {
    hide JournalSound, OnePerCamera, Bounded, TasksSound, Spool, StartError;
  }
}
