/** The recording manager as an object: its methods take the steps of RecordingSpool. */
module RecordingManager {
  import opened Wrappers
  import opened Bytes
  import opened RecordingSpool

  /** How removing one media file and syncing the directory went. */
  datatype Removal = Removed | Kept | RemovedUnsynced

  // ---------- the capture loop of one recording

  datatype Input =
    | Data(frame: seq<Byte>, written: bool, late: bool)
    | Lagged
    | End

  /** What the capture loop makes of its inputs; running dry stands for the overall timeout. */
  function Capture(inputs: seq<Input>, content: seq<Byte>, maxBytes: nat): Result<seq<Byte>, EngineError>
    decreases |inputs|
  {
    if inputs == [] then Err(RecordingInvalid)
    else
      match inputs[0]
      case End => if content == [] then Err(RecordingInvalid) else Ok(content)
      case Lagged => Capture(inputs[1..], content, maxBytes)
      case Data(frame, written, late) =>
        if frame == [] || frame[0] != MPEG_TS_SYNC then Err(RecordingInvalid)
        else if |content| + |frame| > maxBytes then Err(RecordingCapacity)
        else if !written then Err(RecordingIo)
        else if late then Ok(content + frame)
        else Capture(inputs[1..], content + frame, maxBytes)
  }

  function Appends(inputs: seq<Input>, content: seq<Byte>, id: Id, maxBytes: nat): seq<Step>
    decreases |inputs|
  {
    if inputs == [] || Capture(inputs, content, maxBytes).Err? then []
    else
      match inputs[0]
      case End => []
      case Lagged => Appends(inputs[1..], content, id, maxBytes)
      case Data(frame, _, late) =>
        [Append(id, frame)] + if late then [] else Appends(inputs[1..], content + frame, id, maxBytes)
  }

  /** A successful capture is a run of append steps: its bytes are the task's, within the cap. */
  lemma {:induction false} CaptureTakesAppendSteps(s: System, l: Limits, id: Id, inputs: seq<Input>, content: seq<Byte>)
    requires s.up && id in s.tasks && s.tasks[id] == Capturing(content) && |content| <= l.maxBytes
    requires Capture(inputs, content, l.maxBytes).Ok?
    ensures var t := Run(s, l, Appends(inputs, content, id, l.maxBytes));
            var captured := Capture(inputs, content, l.maxBytes).value;
            && id in t.tasks && t.tasks[id] == Capturing(captured)
            && captured != [] && content <= captured && |captured| <= l.maxBytes
    decreases |inputs|
  {
    match inputs[0] {
      case End =>
      case Lagged => CaptureTakesAppendSteps(s, l, id, inputs[1..], content);
      case Data(frame, _, late) =>
        var t := Act(s, l, Append(id, frame));
        if late {
          assert Run(s, l, [Append(id, frame)]) == Run(t, l, []);
        } else {
          CaptureTakesAppendSteps(t, l, id, inputs[1..], content + frame);
          var steps := Appends(inputs, content, id, l.maxBytes);
          assert steps[1..] == Appends(inputs[1..], content + frame, id, l.maxBytes);
        }
    }
  }

  // ---------- motion recordings

  /** Completed motion recordings are the only ones ever removed automatically. */
  predicate Evictable(m: Manifest) {
    m.motion && (m.status == Ready || m.status == Failed)
  }

  predicate Older(j: Journal, id: Id, other: Id)
    requires id in j.manifests && other in j.manifests
  {
    j.manifests[id].requestedAt < j.manifests[other].requestedAt
    || (j.manifests[id].requestedAt == j.manifests[other].requestedAt && id <= other)
  }

  predicate Oldest(j: Journal, id: Id) {
    && id in j.manifests && Evictable(j.manifests[id])
    && forall other :: other in j.manifests && Evictable(j.manifests[other]) ==> Older(j, id, other)
  }

  lemma RecoveredIgnoresPartials(disk: Disk)
    ensures Recovered(disk) == disk.journal.(manifests := Recovered(disk).manifests)
    ensures Recovered(disk.(partials := map[])) == Recovered(disk)
  {
  }

  lemma LoadedIsAfterCrash(s: System)
    requires s.tasks == map[] && s.deleting.None?
    ensures var memory := Recovered(s.disk);
            AfterCrash(s) == s.(disk := s.disk.(partials := map[], journal := memory), memory := memory, up := true)
  {
    hide Recovered;
    RecoveredIgnoresPartials(s.disk);
  }

  /** A load that fails leaves a disk from which the next one reaches the same state. */
  lemma SameAfterCrash(before: System, after: System)
    requires after == before.(disk := after.disk) && after.disk.media == before.disk.media
    requires after.disk.journal in {before.disk.journal, Recovered(before.disk)}
    ensures AfterCrash(after) == AfterCrash(before)
  {
    hide Recovered;
    RecoveredIgnoresPartials(before.disk);
    RecoveredIgnoresPartials(after.disk);
    RecoveredTwice(before.disk);
    assert after.disk.(partials := map[]) == before.disk.(partials := map[], journal := after.disk.journal);
    assert before.disk.(partials := map[], journal := Recovered(before.disk))
        == before.disk.(partials := map[]).(journal := Recovered(before.disk));
    RecoveredTwice(before.disk.(partials := map[]));
  }

  class Manager {
    const limits: Limits
    var disk: Disk
    var memory: Journal
    var tasks: map<Id, Task>
    var deleting: Option<Id>
    var up: bool
    var issued: set<Id>

    ghost function Abs(): System
      reads this
    {
      System(disk, memory, tasks, deleting, up, issued)
    }

    constructor (limits: Limits)
      ensures this.limits == limits && Abs() == EMPTY
    {
      this.limits := limits;
      disk, memory, tasks, deleting, up, issued := Disk(NOTHING, map[], map[]), NOTHING, map[], None, true, {};
    }

    /** Folds the sizes of the finished media files. */
    method SpoolBytes() returns (total: nat)
      ensures total == Spool(disk.media)
    {
      total := 0;
      var rest := disk.media;
      while rest != map[]
        invariant total + Spool(rest) == Spool(disk.media)
        decreases |rest|
      {
        var id :| id in rest;
        SpoolWithout(rest, id);
        total := total + |rest[id]|;
        assert id in rest.Keys && (rest - {id}).Keys == rest.Keys - {id};
        rest := rest - {id};
      }
    }

    method Persist(outcome: Persist) returns (ok: bool)
      modifies this`disk
      ensures Abs() == Persisted(old(Abs()), outcome) && ok == outcome.Synced?
    {
      if !outcome.Refused? {
        disk := disk.(journal := memory);
      }
      ok := outcome.Synced?;
    }

    method Begin(camera: string, duration: nat, request: string, motion: bool, now: nat, newId: Id,
                 outcome: Persist, spawned: bool)
      returns (r: Result<Manifest, EngineError>)
      requires Unlocked(Abs()) && newId !in issued
      requires forall q :: q in memory.requests ==> memory.requests[q] in memory.manifests
      modifies this
      ensures Abs() == Act(old(Abs()), limits, Start(camera, duration, request, motion, now, newId, outcome, spawned))
      ensures var e := StartError(old(Abs()), limits, camera, duration, request);
              if e.Some? then r == Err(e.value)
              else if request !in old(memory.requests) && !outcome.Synced? then r == Err(RecordingIo)
              else
                && request in memory.requests && memory.requests[request] in memory.manifests
                && r == Ok(memory.manifests[memory.requests[request]])
    {
      if !(1 <= duration <= limits.maxDuration) || !(8 <= |request| <= 128) {
        return Err(RecordingInvalid);
      }
      if camera !in limits.cameras {
        return Err(CameraNotFound);
      }
      if request in memory.requests {
        var known := memory.manifests[memory.requests[request]];
        if known.camera == camera && known.duration == duration {
          return Ok(known);
        }
        return Err(RecordingInvalid);
      }
      if exists id :: id in memory.manifests && memory.manifests[id].camera == camera && Active(memory.manifests[id]) {
        return Err(RecordingActive);
      }
      var spool := SpoolBytes();
      if spool + limits.maxBytes > limits.quota {
        return Err(RecordingCapacity);
      }
      var m := Manifest(camera, Pending, now, duration, motion, None, None, None);
      issued := issued + {newId};
      memory := Journal(memory.manifests[newId := m], memory.requests[request := newId]);
      var ok := Persist(outcome);
      if !ok {
        return Err(RecordingIo);
      }
      if spawned {
        tasks := tasks[newId := Spawned];
      }
      return Ok(m);
    }

    /** Removes the media file first and the manifest after; true when there was such a recording. */
    method Acknowledge(id: Id, removal: Removal, outcome: Persist) returns (r: Result<bool, EngineError>)
      requires Unlocked(Abs())
      modifies this
      ensures id !in old(memory.manifests) ==> r == Ok(false) && Abs() == old(Abs())
      ensures id in old(memory.manifests) && Active(old(memory.manifests[id])) ==>
                r == Err(RecordingActive) && Abs() == old(Abs())
      ensures id in old(memory.manifests) && !Active(old(memory.manifests[id])) ==>
                var deleted := Act(old(Abs()), limits, Delete(id));
                if id in old(disk.media) && removal.Kept? then r == Err(RecordingIo) && Abs() == old(Abs())
                else if id in old(disk.media) && removal.RemovedUnsynced?
                then r == Err(RecordingIo) && Abs() == Act(deleted, limits, GiveUp(id))
                else
                  && Abs() == Act(deleted, limits, Forget(id, outcome))
                  && r == if outcome.Synced? then Ok(true) else Err(RecordingIo)
    {
      hide Spool, StartError;
      if id !in memory.manifests {
        return Ok(false);
      }
      if Active(memory.manifests[id]) {
        return Err(RecordingActive);
      }
      if id in disk.media {
        if removal.Kept? {
          return Err(RecordingIo);
        }
        disk := disk.(media := disk.media - {id});
        if removal.RemovedUnsynced? {
          return Err(RecordingIo);
        }
      } else {
        assert disk.media - {id} == disk.media;
      }
      memory := Journal(memory.manifests - {id},
                        map q | q in memory.requests && memory.requests[q] != id :: memory.requests[q]);
      var ok := Persist(outcome);
      return if ok then Ok(true) else Err(RecordingIo);
    }

    method ReportRecording(id: Id, outcome: Persist) returns (r: Result<(string, nat), EngineError>)
      requires Unlocked(Abs()) && id in tasks && tasks[id] == Spawned
      modifies this
      ensures Abs() == Act(old(Abs()), limits, MarkRecording(id, outcome))
      ensures r == if id !in old(memory.manifests) then Err(RecordingInvalid)
                   else if !outcome.Synced? then Err(RecordingIo)
                   else Ok((old(memory).manifests[id].camera, old(memory).manifests[id].duration))
    {
      if id !in memory.manifests {
        tasks := tasks[id := Erring("invalid_media")];
        return Err(RecordingInvalid);
      }
      var m := memory.manifests[id].(status := Recording);
      memory := memory.(manifests := memory.manifests[id := m]);
      var ok := Persist(outcome);
      tasks := tasks[id := if ok then Marked else Erring("upstream_failure")];
      return if ok then Ok((m.camera, m.duration)) else Err(RecordingIo);
    }

    method ReportReady(id: Id, outcome: Persist) returns (r: Result<(), EngineError>)
      requires Unlocked(Abs()) && id in tasks && tasks[id].Moved?
      modifies this
      ensures Abs() == Act(old(Abs()), limits, MarkReady(id, outcome))
      ensures r == if id !in old(memory.manifests) then Err(RecordingInvalid)
                   else if outcome.Synced? then Ok(()) else Err(RecordingIo)
    {
      if id !in memory.manifests {
        tasks := tasks[id := Erring("invalid_media")];
        return Err(RecordingInvalid);
      }
      var content := tasks[id].content;
      memory := memory.(manifests := memory.manifests[id :=
        memory.manifests[id].(status := Ready, bytes := Some(|content|), digest := Some(content), error := None)]);
      var ok := Persist(outcome);
      tasks := tasks[id := if ok then Finished else Erring("upstream_failure")];
      return if ok then Ok(()) else Err(RecordingIo);
    }

    /** Ends interrupted recordings and fails ready ones whose file is missing. */
    method RecoverManifests() returns (recovered: map<Id, Manifest>)
      ensures recovered == Recovered(disk).manifests
    {
      hide RecoveredManifest;
      var left := disk.journal.manifests.Keys;
      recovered := map[];
      while left != {}
        invariant left <= disk.journal.manifests.Keys
        invariant recovered.Keys == disk.journal.manifests.Keys - left
        invariant forall id :: id in recovered ==>
                    recovered[id] == RecoveredManifest(disk.journal.manifests[id], id in disk.media)
        decreases |left|
      {
        var id :| id in left;
        var m := RecoverManifest(disk.journal.manifests[id], id in disk.media);
        recovered := recovered[id := m];
        left := left - {id};
      }
    }

    static method RecoverManifest(m: Manifest, hasFile: bool) returns (r: Manifest)
      ensures r == RecoveredManifest(m, hasFile)
    {
      r := m;
      if m.status == Pending || m.status == Recording {
        r := Failure(m, "interrupted");
      } else if m.status == Ready && !hasFile {
        r := Failure(m, "missing_media");
        r := r.(bytes := None, digest := None);
      }
    }

    /**
     * Reads the journal, recovers its manifests, removes every partial and writes the journal back. A load that cannot
     * read, or fails at a removal after `removals` of them, or at the write, leaves the engine down.
     */
    method Load(readable: bool, removals: nat, write: Persist) returns (ok: bool)
      requires !up && tasks == map[] && deleting.None?
      modifies this
      ensures ok <==> readable && |old(disk).partials| <= removals && write.Synced?
      ensures ok ==> Abs() == AfterCrash(old(Abs()))
      ensures !ok ==> Abs() == old(Abs()).(disk := disk) && AfterCrash(Abs()) == AfterCrash(old(Abs()))
      ensures !readable ==> disk == old(disk)
      ensures readable && removals < |old(disk).partials| ==>
                && disk == old(disk).(partials := disk.partials) && |disk.partials| == |old(disk).partials| - removals
                && forall id :: id in disk.partials ==>
                     id in old(disk).partials && disk.partials[id] == old(disk).partials[id]
      ensures readable && |old(disk).partials| <= removals ==>
                && disk.partials == map[] && disk.media == old(disk).media
                && disk.journal == if write.Refused? then old(disk).journal else Recovered(old(disk))
    {
      hide Recovered, AfterCrash;
      if !readable {
        return false;
      }
      var recovered := RecoverManifests();
      RecoveredIgnoresPartials(disk);
      var loaded := disk.journal.(manifests := recovered);
      var left := removals;
      while disk.partials != map[]
        invariant disk == old(disk).(partials := disk.partials)
        invariant Abs() == old(Abs()).(disk := disk)
        invariant |old(disk).partials| - |disk.partials| == removals - left
        invariant forall id :: id in disk.partials ==>
                    id in old(disk).partials && disk.partials[id] == old(disk).partials[id]
        decreases |disk.partials|
      {
        if left == 0 {
          SameAfterCrash(old(Abs()), Abs());
          return false;
        }
        var id :| id in disk.partials;
        assert (disk.partials - {id}).Keys == disk.partials.Keys - {id};
        disk := disk.(partials := disk.partials - {id});
        left := left - 1;
      }
      if !write.Refused? {
        disk := disk.(journal := loaded);
      }
      if !write.Synced? {
        SameAfterCrash(old(Abs()), Abs());
        return false;
      }
      memory, up := loaded, true;
      LoadedIsAfterCrash(old(Abs()));
      return true;
    }

    /** The capture loop: stops on a bad frame, at the byte cap, at the deadline or at the end of the stream. */
    method CaptureStream(inputs: seq<Input>) returns (r: Result<seq<Byte>, EngineError>)
      ensures r == Capture(inputs, [], limits.maxBytes)
    {
      var content: seq<Byte> := [];
      for i := 0 to |inputs|
        invariant Capture(inputs, [], limits.maxBytes) == Capture(inputs[i..], content, limits.maxBytes)
      {
        assert inputs[i..][1..] == inputs[i + 1..];
        match inputs[i] {
          case Lagged =>
          case End =>
            if content == [] {
              return Err(RecordingInvalid);
            }
            return Ok(content);
          case Data(frame, written, late) =>
            if frame == [] || frame[0] != MPEG_TS_SYNC {
              return Err(RecordingInvalid);
            }
            if |content| + |frame| > limits.maxBytes {
              return Err(RecordingCapacity);
            }
            if !written {
              return Err(RecordingIo);
            }
            content := content + frame;
            if late {
              return Ok(content);
            }
        }
      }
      return Err(RecordingInvalid);
    }

    /** The oldest completed motion recording, if any. */
    method OldestMotion() returns (oldest: Option<Id>)
      ensures oldest.None? ==> NothingEvictable(memory)
      ensures oldest.Some? ==> Oldest(memory, oldest.value)
    {
      oldest := None;
      var left := memory.manifests.Keys;
      while left != {}
        invariant left <= memory.manifests.Keys
        invariant oldest.None? ==>
                    forall id :: id in memory.manifests && id !in left ==> !Evictable(memory.manifests[id])
        invariant oldest.Some? ==>
                    && oldest.value in memory.manifests && Evictable(memory.manifests[oldest.value])
                    && forall id :: id in memory.manifests && id !in left && Evictable(memory.manifests[id]) ==>
                         Older(memory, oldest.value, id)
        decreases |left|
      {
        var id :| id in left;
        left := left - {id};
        if Evictable(memory.manifests[id]) && (oldest.None? || !Older(memory, oldest.value, id)) {
          oldest := Some(id);
        }
      }
    }

    /** Requests of the in-memory journal name its recordings. */
    ghost predicate Named()
      reads this
    {
      forall q :: q in memory.requests ==> memory.requests[q] in memory.manifests
    }

    method TryBegin(camera: string, duration: nat, request: string, now: nat, newId: Id, outcome: Persist,
                    spawned: bool)
      returns (r: Result<Manifest, EngineError>)
      requires Unlocked(Abs()) && newId !in issued && newId !in memory.manifests && Named()
      modifies this
      ensures var start := Start(camera, duration, request, true, now, newId, outcome, spawned);
              Abs() == Act(old(Abs()), limits, start) && r == Answered(old(Abs()), limits, start, Abs())
      ensures r == Err(RecordingCapacity) ==> Abs() == old(Abs())
      ensures r == Err(RecordingCapacity) <==>
                StartError(old(Abs()), limits, camera, duration, request) == Some(RecordingCapacity)
      ensures r == Err(RecordingCapacity) ==> Spool(disk.media) + limits.maxBytes > limits.quota
      ensures disk.media == old(disk.media)
      ensures forall id :: id in old(memory.manifests) ==>
                id in memory.manifests && memory.manifests[id] == old(memory.manifests)[id]
    {
      r := Begin(camera, duration, request, true, now, newId, outcome, spawned);
    }

    /** Acknowledges the oldest completed motion recording; false when none is left. */
    method EvictOldestMotion(removal: Removal, outcome: Persist)
      returns (r: Result<bool, EngineError>, id: Id)
      requires Unlocked(Abs()) && Named()
      modifies this
      ensures r.Ok? && !r.value ==>
                Abs() == old(Abs()) && NothingEvictable(memory)
      ensures r.Err? || r.value ==> Oldest(old(memory), id)
      ensures r.Ok? && r.value ==> Abs() == Act(Act(old(Abs()), limits, Delete(id)), limits, Forget(id, Synced))
      ensures r.Err? ==> !removal.Removed? || !outcome.Synced?
      ensures r.Ok? && r.value ==>
                && Unlocked(Abs()) && Named() && issued == old(issued)
                && disk.media == old(disk.media) - {id} && memory.manifests == old(memory.manifests) - {id}
      ensures r.Err? ==>
                && r.error == RecordingIo
                && (memory.manifests == old(memory.manifests) || memory.manifests == old(memory.manifests) - {id})
                && (disk.media == old(disk.media) || disk.media == old(disk.media) - {id})
    {
      var oldest := OldestMotion();
      if oldest.None? {
        return Ok(false), 0;
      }
      id := oldest.value;
      hide Spool, StartError, Oldest;
      DeletionEffect(Abs(), limits, id, outcome);
      OldestIsKnown(memory, id);
      hide Act, Evictable;
      r := Acknowledge(id, removal, outcome);
    }

    /** Nothing but the recordings in `touched` has left the given journal and media files. */
    ghost predicate Evicting(j: Journal, media: map<Id, seq<Byte>>, newId: Id, touched: seq<Id>)
      reads this
    {
      && Unlocked(Abs()) && Named() && newId !in issued && newId !in memory.manifests
      && disk.media == media - Members(touched)
      && memory.manifests == j.manifests - Members(touched)
      && EvictionOrder(j, media, limits, touched)
    }

    /** One round: `r` is absent when a recording was evicted and the start is to be tried again. */
    method MotionRound(camera: string, duration: nat, event: string, now: nat, newId: Id, outcome: Persist,
                       spawned: bool, removal: Removal, write: Persist,
                       ghost j: Journal, ghost media: map<Id, seq<Byte>>, touched: seq<Id>)
      returns (r: Option<Result<Manifest, EngineError>>, after: seq<Id>)
      requires Evicting(j, media, newId, touched)
      modifies this
      ensures r.None? ==> Evicting(j, media, newId, after) && |memory.manifests| < old(|memory.manifests|)
      ensures r.None? ==> EvictedOne(old(Abs()), limits, touched, after, Abs())
      ensures r.Some? ==> touched <= after && |after| <= |touched| + 1
      ensures r.Some? ==>
                && EvictionOrder(j, media, limits, after)
                && OnlyLost(j.manifests, memory.manifests, after) && OnlyLost(media, disk.media, after)
      ensures r.Some? ==>
                Ends(old(Abs()), limits, Start(camera, duration, "motion-" + event, true, now, newId, outcome, spawned),
                     removal, write, r.value, Abs())
      ensures r == Some(Err(RecordingCapacity)) ==>
                Spool(disk.media) + limits.maxBytes > limits.quota && NothingEvictable(memory)
    {
      hide Spool, EvictionOrder, StartError, Oldest, Members, Evictable, OnlyLost, Act, Answered;
      var begun := TryBegin(camera, duration, "motion-" + event, now, newId, outcome, spawned);
      LostMembers(j.manifests, memory.manifests, touched);
      LostMembers(media, disk.media, touched);
      if begun != Err(RecordingCapacity) {
        return Some(begun), touched;
      }
      ghost var before := memory;
      var evicted, id := EvictOldestMotion(removal, write);
      if evicted.Ok? && !evicted.value {
        return Some(begun), touched;
      }
      EvictionStep(j, media, limits, before, touched, id);
      after := touched + [id];
      LostOneMore(j.manifests, memory.manifests, touched, id);
      LostOneMore(media, disk.media, touched, id);
      r := if evicted.Err? then Some(Err(evicted.error)) else None;
    }

    /**
     * Starts a motion recording, making room by removing completed motion recordings, oldest first and only
     * while the spool has no headroom. Manual and running recordings are never touched.
     */
    method BeginMotion(camera: string, duration: nat, event: string, now: nat, newId: Id, outcome: Persist,
                       spawned: bool, removals: nat -> Removal, writes: nat -> Persist)
      returns (r: Result<Manifest, EngineError>, touched: seq<Id>, ghost evicted: seq<Id>)
      requires Unlocked(Abs()) && Named() && newId !in issued && newId !in memory.manifests
      modifies this
      ensures Ends(AfterEvictions(old(Abs()), limits, evicted), limits,
                   Start(camera, duration, "motion-" + event, true, now, newId, outcome, spawned),
                   removals(|evicted|), writes(|evicted|), r, Abs())
      ensures evicted <= touched && |touched| <= |evicted| + 1
      ensures EvictionOrder(old(memory), old(disk.media), limits, touched)
      ensures OnlyLost(old(memory.manifests), memory.manifests, touched)
      ensures OnlyLost(old(disk.media), disk.media, touched)
      ensures r == Err(RecordingCapacity) ==>
                Spool(disk.media) + limits.maxBytes > limits.quota && NothingEvictable(memory)
    {
      hide Spool, EvictionOrder, Evictable, OnlyLost, Act, Ends, EvictedOne, Members, StartError, AfterEvictions,
           NothingEvictable;
      touched, evicted := [], [];
      NothingEvicted(memory, disk.media, limits);
      NoEvictions(Abs(), limits);
      while true
        invariant Evicting(old(memory), old(disk.media), newId, touched)
        invariant evicted == touched && Abs() == AfterEvictions(old(Abs()), limits, evicted)
        decreases |memory.manifests|
      {
        var done;
        ghost var before := Abs();
        done, touched := MotionRound(camera, duration, event, now, newId, outcome, spawned, removals(|touched|),
                                     writes(|touched|), old(memory), old(disk.media), touched);
        if done.Some? {
          return done.value, touched, evicted;
        }
        EvictionsOneMore(old(Abs()), limits, before, evicted, touched, Abs());
        evicted := touched;
      }
    }
  }

  // ---------- what a motion recording leaves behind

  /** Each of these recordings was removed, file and manifest, without a failure. */
  ghost function AfterEvictions(s: System, l: Limits, ids: seq<Id>): System {
    if ids == [] then s
    else
      var last := ids[|ids| - 1];
      Act(Act(AfterEvictions(s, l, ids[..|ids| - 1]), l, Delete(last)), l, Forget(last, Synced))
  }

  /**
   * How starting a motion recording ends: with the answer to the request, accepted or refused, when the spool is not
   * full; with a full spool and no motion recording left that has ended, the state untouched; or with a removal that
   * failed.
   */
  lemma EndsMeans(before: System, l: Limits, start: Step, removal: Removal, write: Persist,
                  r: Result<Manifest, EngineError>, after: System)
    requires start.Start? && Ends(before, l, start, removal, write, r, after)
    ensures var e := StartError(before, l, start.camera, start.duration, start.request);
            && (r == Err(RecordingCapacity) ==> after == before && NothingEvictable(before.memory))
            && (e == Some(RecordingCapacity) && r != Err(RecordingCapacity) ==>
                  r == Err(RecordingIo) && (removal in {Kept, RemovedUnsynced} || write in {Refused, Unsynced}))
            && (e != Some(RecordingCapacity) ==>
                  && after == Act(before, l, start)
                  && (e.Some? ==> r == Err(e.value))
                  && (e.None? && start.request !in before.memory.requests && start.persist in {Refused, Unsynced} ==>
                        r == Err(RecordingIo))
                  && (e.None? && (start.request in before.memory.requests || start.persist == Synced)
                      && start.request in after.memory.requests
                      && after.memory.requests[start.request] in after.memory.manifests ==>
                        r == Ok(after.memory.manifests[after.memory.requests[start.request]])))
  {
    hide Act, Spool;
  }

  ghost predicate EvictedOne(before: System, l: Limits, touched: seq<Id>, more: seq<Id>, after: System) {
    && |more| == |touched| + 1 && more[..|touched|] == touched
    && after == Act(Act(before, l, Delete(more[|touched|])), l, Forget(more[|touched|], Synced))
  }

  lemma NoEvictions(s: System, l: Limits)
    ensures AfterEvictions(s, l, []) == s
  {
  }

  lemma EvictionsOneMore(s: System, l: Limits, before: System, touched: seq<Id>, more: seq<Id>, after: System)
    requires before == AfterEvictions(s, l, touched) && EvictedOne(before, l, touched, more, after)
    ensures after == AfterEvictions(s, l, more)
  {
    hide Act;
  }

  ghost predicate NothingEvictable(j: Journal) {
    forall id :: id in j.manifests ==> !Evictable(j.manifests[id])
  }

  /** The answer to a request that leads from `before` to `after`. */
  ghost function Answered(before: System, l: Limits, start: Step, after: System): Result<Manifest, EngineError>
    requires start.Start?
  {
    var e := StartError(before, l, start.camera, start.duration, start.request);
    var journal := after.memory;
    if e.Some? then Err(e.value)
    else if start.request !in before.memory.requests && !start.persist.Synced? then Err(RecordingIo)
    else if start.request in journal.requests && journal.requests[start.request] in journal.manifests
    then Ok(journal.manifests[journal.requests[start.request]])
    else Err(RecordingInvalid)
  }

  /**
   * The last round: the request is answered, for whatever reason but a full spool; or the spool is full and nothing is
   * left to remove, or a removal fails.
   */
  ghost predicate Ends(before: System, l: Limits, start: Step, removal: Removal, write: Persist,
                       r: Result<Manifest, EngineError>, after: System)
    requires start.Start?
  {
    if StartError(before, l, start.camera, start.duration, start.request) != Some(RecordingCapacity) then
      after == Act(before, l, start) && r == Answered(before, l, start, after)
    else
      || (r == Err(RecordingCapacity) && after == before && NothingEvictable(before.memory))
      || (r == Err(RecordingIo) && (!removal.Removed? || !write.Synced?))
  }

  function Members(ids: seq<Id>): set<Id> {
    set id | id in ids
  }

  /** Each id was, in its turn, the oldest evictable recording left, and the spool had no headroom yet. */
  ghost predicate EvictionOrder(j: Journal, media: map<Id, seq<Byte>>, l: Limits, touched: seq<Id>) {
    forall i :: 0 <= i < |touched| ==>
      && Oldest(Without(j, touched[..i]), touched[i])
      && Spool(media - Members(touched[..i])) + l.maxBytes > l.quota
  }

  function Without(j: Journal, ids: seq<Id>): Journal {
    j.(manifests := j.manifests - Members(ids))
  }

  lemma NothingEvicted(j: Journal, media: map<Id, seq<Byte>>, l: Limits)
    ensures EvictionOrder(j, media, l, [])
    ensures media - Members([]) == media && j.manifests - Members([]) == j.manifests
  {
  }

  lemma MinusMembers<V>(m: map<Id, V>, touched: seq<Id>, id: Id)
    ensures m - Members(touched) - {id} == m - Members(touched + [id])
  {
    assert Members(touched + [id]) == Members(touched) + {id};
  }

  lemma FewerEntries<V>(m: map<Id, V>, id: Id)
    requires id in m
    ensures |m - {id}| < |m|
  {
    assert (m - {id}).Keys == m.Keys - {id};
  }

  lemma ExtendOrder(j: Journal, media: map<Id, seq<Byte>>, l: Limits, touched: seq<Id>, id: Id)
    requires EvictionOrder(j, media, l, touched) && Oldest(Without(j, touched), id)
    requires Spool(media - Members(touched)) + l.maxBytes > l.quota
    ensures EvictionOrder(j, media, l, touched + [id])
  {
    hide Spool, Oldest, Without, Members;
    var longer := touched + [id];
    assert longer[..|touched|] == touched;
    forall i | 0 <= i < |longer|
      ensures Oldest(Without(j, longer[..i]), longer[i]) && Spool(media - Members(longer[..i])) + l.maxBytes > l.quota
    {
      if i < |touched| {
        assert longer[..i] == touched[..i] && longer[i] == touched[i];
      }
    }
  }

  lemma OldestOfSame(j: Journal, k: Journal, id: Id)
    requires j.manifests == k.manifests && Oldest(j, id)
    ensures Oldest(k, id)
  {
  }

  lemma EvictionStep(
      j: Journal, media: map<Id, seq<Byte>>, l: Limits, before: Journal, touched: seq<Id>, id: Id)
    requires EvictionOrder(j, media, l, touched) && Spool(media - Members(touched)) + l.maxBytes > l.quota
    requires before.manifests == j.manifests - Members(touched) && Oldest(before, id)
    ensures EvictionOrder(j, media, l, touched + [id])
    ensures media - Members(touched) - {id} == media - Members(touched + [id])
    ensures j.manifests - Members(touched) - {id} == j.manifests - Members(touched + [id])
    ensures |before.manifests - {id}| < |before.manifests|
  {
    hide Spool, EvictionOrder, Members, Oldest;
    OldestOfSame(before, Without(j, touched), id);
    ExtendOrder(j, media, l, touched, id);
    MinusMembers(media, touched, id);
    MinusMembers(j.manifests, touched, id);
    OldestIsKnown(before, id);
    FewerEntries(before.manifests, id);
  }

  /** Everything outside `touched` is still there, unchanged. */
  ghost predicate OnlyLost<V>(m: map<Id, V>, left: map<Id, V>, touched: seq<Id>) {
    forall id :: id in m && id !in touched ==> id in left && left[id] == m[id]
  }

  lemma LostMembers<V>(m: map<Id, V>, left: map<Id, V>, touched: seq<Id>)
    ensures (forall id :: id in m - Members(touched) ==> id in left && left[id] == m[id]) ==> OnlyLost(m, left, touched)
  {
  }

  lemma LostOneMore<V>(m: map<Id, V>, left: map<Id, V>, touched: seq<Id>, id: Id)
    ensures left == m - Members(touched) || left == m - Members(touched) - {id} ==> OnlyLost(m, left, touched + [id])
  {
  }

  lemma OldestIsKnown(j: Journal, id: Id)
    requires Oldest(j, id)
    ensures id in j.manifests && Evictable(j.manifests[id]) && !Active(j.manifests[id])
  {
  }

  /** Everything evicted was a completed motion recording; none is evicted twice, and older ones go first. */
  lemma EvictedAreCompletedMotion(j: Journal, media: map<Id, seq<Byte>>, l: Limits, touched: seq<Id>,
                                  first: nat, later: nat)
    requires EvictionOrder(j, media, l, touched) && first < later < |touched|
    ensures touched[first] in j.manifests && touched[later] in j.manifests
    ensures var one, other := j.manifests[touched[first]], j.manifests[touched[later]];
            && one.motion && one.status in {Ready, Failed} && other.motion && other.status in {Ready, Failed}
            && touched[first] != touched[later]
            && (one.requestedAt < other.requestedAt
                || (one.requestedAt == other.requestedAt && touched[first] < touched[later]))
  {
    hide Spool;
    assert Oldest(Without(j, touched[..first]), touched[first]);
    assert Oldest(Without(j, touched[..later]), touched[later]);
    assert touched[first] in touched[..later];
    assert touched[later] !in Members(touched[..later]);
    assert Members(touched[..first]) <= Members(touched[..later]);
    assert touched[later] in Without(j, touched[..first]).manifests;
  }

  /** Nothing is left to remove iff no recording was made for motion and has ended. */
  lemma NothingEvictableIff(j: Journal)
    ensures NothingEvictable(j) <==>
              forall id :: id in j.manifests && j.manifests[id].motion ==>
                j.manifests[id].status in {Pending, Recording}
  {
  }

  lemma DeletionEffect(s: System, l: Limits, id: Id, outcome: Persist)
    requires Unlocked(s) && id in s.memory.manifests && !Active(s.memory.manifests[id])
    ensures var t := Act(s, l, Delete(id)); t.disk.media == s.disk.media - {id} && t.memory == s.memory
    ensures var t := Act(Act(s, l, Delete(id)), l, GiveUp(id));
            t.disk.media == s.disk.media - {id} && t.memory == s.memory
    ensures var t := Act(Act(s, l, Delete(id)), l, Forget(id, outcome));
            && t.disk.media == s.disk.media - {id} && t.memory.manifests == s.memory.manifests - {id}
            && t.issued == s.issued && Unlocked(t)
            && forall q :: q in t.memory.requests ==>
                 q in s.memory.requests && t.memory.requests[q] == s.memory.requests[q] && t.memory.requests[q] != id
  {
    hide Spool, StartError;
  }
}
