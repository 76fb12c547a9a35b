/**
 * Whole recordings: what a request, the bytes captured for it and the way its task ends leave in the journal and in
 * the spool, and when a request is refused.
 */
module RecordingOutcomes {
  import opened Wrappers
  import opened Bytes
  import opened RecordingSpool

  function Appending(id: Id, frames: seq<seq<Byte>>): seq<Step> {
    if frames == [] then [] else [Append(id, frames[0])] + Appending(id, frames[1..])
  }

  lemma {:induction false} RunAppend(s: System, l: Limits, left: seq<Step>, right: seq<Step>)
    ensures Run(s, l, left + right) == Run(Run(s, l, left), l, right)
    decreases |left|
  {
    hide Act;
    if left == [] {
      assert left + right == right;
    } else {
      RunAppend(Act(s, l, left[0]), l, left[1..], right);
      assert (left + right)[1..] == left[1..] + right;
    }
  }

  lemma RunOne(s: System, l: Limits, step: Step)
    ensures Run(s, l, [step]) == Act(s, l, step)
  {
    hide Act;
    assert [step][1..] == [];
    assert Run(Act(s, l, step), l, []) == Act(s, l, step);
  }

  lemma RunThree(s: System, l: Limits, a: Step, b: Step, c: Step)
    ensures Run(s, l, [a, b, c]) == Act(Act(Act(s, l, a), l, b), l, c)
  {
    hide Act;
    RunOne(s, l, a);
    RunOne(Act(s, l, a), l, b);
    RunOne(Act(Act(s, l, a), l, b), l, c);
    RunAppend(s, l, [a], [b]);
    RunAppend(s, l, [a] + [b], [c]);
    assert [a] + [b] + [c] == [a, b, c];
  }

  predicate Frames(frames: seq<seq<Byte>>) {
    forall f :: f in frames ==> f != [] && f[0] == 0x47
  }

  lemma {:induction false} AppendsRun(s: System, l: Limits, id: Id, content: seq<Byte>, frames: seq<seq<Byte>>)
    requires s.up && id in s.tasks && s.tasks[id] == Capturing(content) && id in s.disk.partials
    requires s.disk.partials[id] == content && Frames(frames) && |content| + |Concat(frames)| <= l.maxBytes
    ensures var all := content + Concat(frames);
            Run(s, l, Appending(id, frames))
            == s.(tasks := s.tasks[id := Capturing(all)], disk := s.disk.(partials := s.disk.partials[id := all]))
    decreases |frames|
  {
    if frames == [] {
      assert content + Concat(frames) == content && s.tasks[id := Capturing(content)] == s.tasks;
      assert s.disk.partials[id := content] == s.disk.partials;
    } else {
      var f, more := frames[0], Concat(frames[1..]);
      assert f in frames && forall g :: g in frames[1..] ==> g in frames;
      assert content + (f + more) == content + f + more;
      var t := Act(s, l, Append(id, f));
      assert t == s.(tasks := s.tasks[id := Capturing(content + f)],
                     disk := s.disk.(partials := s.disk.partials[id := content + f]));
      AppendsRun(t, l, id, content + f, frames[1..]);
      assert t.tasks[id := Capturing(content + f + more)] == s.tasks[id := Capturing(content + f + more)];
      assert t.disk.partials[id := content + f + more] == s.disk.partials[id := content + f + more];
      assert Appending(id, frames)[1..] == Appending(id, frames[1..]);
    }
  }

  /** What a recording was asked for. */
  datatype Request = Request(camera: string, duration: nat, request: string, motion: bool, now: nat)

  /** From the request to the open partial file. */
  function Opening(q: Request, id: Id): seq<Step> {
    [Start(q.camera, q.duration, q.request, q.motion, q.now, id, Synced, true), MarkRecording(id, Synced),
     OpenPartial(id, true)]
  }

  predicate Accepted(s: System, l: Limits, q: Request, id: Id) {
    && s.up && s.deleting.None? && id !in s.issued && id !in s.disk.partials && id !in s.tasks
    && id !in s.memory.manifests && q.request !in s.memory.requests
  }

  lemma OpeningRuns(s: System, l: Limits, q: Request, id: Id)
    requires Accepted(s, l, q, id) && StartError(s, l, q.camera, q.duration, q.request).None?
    ensures var m := Manifest(q.camera, Recording, q.now, q.duration, q.motion, None, None, None);
            var journal := Journal(s.memory.manifests[id := m], s.memory.requests[q.request := id]);
            Run(s, l, Opening(q, id))
            == s.(memory := journal, issued := s.issued + {id}, tasks := s.tasks[id := Capturing([])],
                  disk := s.disk.(journal := journal, partials := s.disk.partials[id := []]))
  {
    hide StartError, Spool, Act;
    RunThree(s, l, Opening(q, id)[0], Opening(q, id)[1], Opening(q, id)[2]);
    StartRuns(s, l, q, id);
    var one := Act(s, l, Opening(q, id)[0]);
    MarkRecordingRuns(one, l, id);
    var m := one.memory.manifests[id].(status := Recording);
    assert one.memory.manifests[id := m] == s.memory.manifests[id := m];
    OpenRuns(Act(one, l, MarkRecording(id, Synced)), l, id);
    assert one.tasks[id := Marked][id := Capturing([])] == s.tasks[id := Capturing([])];
  }

  lemma StartRuns(s: System, l: Limits, q: Request, id: Id)
    requires Accepted(s, l, q, id) && StartError(s, l, q.camera, q.duration, q.request).None?
    ensures var m := Manifest(q.camera, Pending, q.now, q.duration, q.motion, None, None, None);
            var journal := Journal(s.memory.manifests[id := m], s.memory.requests[q.request := id]);
            Act(s, l, Opening(q, id)[0])
            == s.(memory := journal, issued := s.issued + {id}, tasks := s.tasks[id := Spawned],
                  disk := s.disk.(journal := journal))
  {
    hide StartError, Spool;
  }

  lemma MarkRecordingRuns(s: System, l: Limits, id: Id)
    requires s.up && s.deleting.None? && id in s.tasks && s.tasks[id] == Spawned && id in s.memory.manifests
    ensures var memory := s.memory.(manifests := s.memory.manifests[id :=
                                      s.memory.manifests[id].(status := Recording)]);
            Act(s, l, MarkRecording(id, Synced))
            == s.(memory := memory, disk := s.disk.(journal := memory), tasks := s.tasks[id := Marked])
  {
    hide StartError, Spool;
  }

  lemma OpenRuns(s: System, l: Limits, id: Id)
    requires s.up && id in s.tasks && s.tasks[id] == Marked && id !in s.disk.partials
    ensures Act(s, l, OpenPartial(id, true))
         == s.(tasks := s.tasks[id := Capturing([])], disk := s.disk.(partials := s.disk.partials[id := []]))
  {
    hide StartError, Spool;
  }

  /**
   * A request that is accepted, captured and saved without a failure: the journal, in memory and on disk, names one
   * more recording, ready, with the camera, time and duration asked for and the size and digest of all captured bytes,
   * and exactly these bytes are its file; nothing else is changed and no partial file or task is left.
   */
  lemma RecordingSucceeds(s: System, l: Limits, q: Request, id: Id, frames: seq<seq<Byte>>)
    requires Accepted(s, l, q, id) && StartError(s, l, q.camera, q.duration, q.request).None?
    requires Frames(frames) && 0 < |Concat(frames)| <= l.maxBytes
    ensures var content := Concat(frames);
            var t := Run(s, l, Opening(q, id) + Appending(id, frames)
                               + [Rename(id), MarkReady(id, Synced), Flush(id, Synced)]);
            && t.memory == Journal(s.memory.manifests[id := Manifest(q.camera, Ready, q.now, q.duration, q.motion,
                                                                     Some(|content|), Some(content), None)],
                                   s.memory.requests[q.request := id])
            && t.disk == Disk(t.memory, s.disk.media[id := content], s.disk.partials)
            && t.tasks == s.tasks && t.up && t.deleting.None?
  {
    hide StartError, Spool, Run, Concat, Act;
    var content := Concat(frames);
    var begun := Run(s, l, Opening(q, id));
    OpeningRuns(s, l, q, id);
    AppendsRun(begun, l, id, [], frames);
    assert [] + content == content;
    RunAppend(s, l, Opening(q, id), Appending(id, frames));
    var captured := Run(s, l, Opening(q, id) + Appending(id, frames));
    RunAppend(s, l, Opening(q, id) + Appending(id, frames), [Rename(id), MarkReady(id, Synced), Flush(id, Synced)]);
    RunThree(captured, l, Rename(id), MarkReady(id, Synced), Flush(id, Synced));
    SavingRuns(s, captured, l, q, id, content);
  }

  lemma SavingRuns(s: System, captured: System, l: Limits, q: Request, id: Id, content: seq<Byte>)
    requires Accepted(s, l, q, id) && content != []
    requires var m := Manifest(q.camera, Recording, q.now, q.duration, q.motion, None, None, None);
             var journal := Journal(s.memory.manifests[id := m], s.memory.requests[q.request := id]);
             captured
             == s.(memory := journal, issued := s.issued + {id}, tasks := s.tasks[id := Capturing(content)],
                   disk := s.disk.(journal := journal, partials := s.disk.partials[id := content]))
    ensures var t := Act(Act(Act(captured, l, Rename(id)), l, MarkReady(id, Synced)), l, Flush(id, Synced));
            && t.memory == Journal(s.memory.manifests[id := Manifest(q.camera, Ready, q.now, q.duration, q.motion,
                                                                     Some(|content|), Some(content), None)],
                                   s.memory.requests[q.request := id])
            && t.disk == Disk(t.memory, s.disk.media[id := content], s.disk.partials)
            && t.tasks == s.tasks && t.up && t.deleting.None?
  {
    hide Spool, StartError, Act;
    RenameRuns(captured, l, id, content);
    var renamed := Act(captured, l, Rename(id));
    assert renamed.disk.partials == s.disk.partials;
    assert renamed.disk.media == s.disk.media[id := content];
    MarkRuns(renamed, l, id, content);
    var marked := Act(renamed, l, MarkReady(id, Synced));
    assert marked.memory.manifests == s.memory.manifests[id := Manifest(q.camera, Ready, q.now, q.duration, q.motion,
                                                                        Some(|content|), Some(content), None)];
    EndWritesJournal(marked, l, id);
    assert marked.tasks - {id} == s.tasks;
  }

  lemma RenameRuns(s: System, l: Limits, id: Id, content: seq<Byte>)
    requires s.up && id in s.tasks && s.tasks[id] == Capturing(content) && content != []
    requires id in s.disk.partials && s.disk.partials[id] == content
    ensures Act(s, l, Rename(id))
         == s.(tasks := s.tasks[id := Moved(content)],
               disk := s.disk.(partials := s.disk.partials - {id}, media := s.disk.media[id := content]))
  {
    hide Spool, StartError;
  }

  lemma MarkRuns(s: System, l: Limits, id: Id, content: seq<Byte>)
    requires s.up && s.deleting.None? && id in s.tasks && s.tasks[id] == Moved(content) && id in s.memory.manifests
    ensures var m := s.memory.manifests[id].(status := Ready, bytes := Some(|content|), digest := Some(content),
                                             error := None);
            var memory := s.memory.(manifests := s.memory.manifests[id := m]);
            Act(s, l, MarkReady(id, Synced))
            == s.(memory := memory, disk := s.disk.(journal := memory), tasks := s.tasks[id := Finished])
  {
    hide Spool, StartError;
  }

  lemma FailingRuns(s: System, captured: System, l: Limits, q: Request, id: Id, content: seq<Byte>, code: string)
    requires Accepted(s, l, q, id)
    requires var m := Manifest(q.camera, Recording, q.now, q.duration, q.motion, None, None, None);
             var journal := Journal(s.memory.manifests[id := m], s.memory.requests[q.request := id]);
             captured
             == s.(memory := journal, issued := s.issued + {id}, tasks := s.tasks[id := Capturing(content)],
                   disk := s.disk.(journal := journal, partials := s.disk.partials[id := content]))
    ensures var t := Act(Act(captured, l, Abort(id, code, true)), l, MarkFailed(id, Synced));
            && t.memory == Journal(s.memory.manifests[id := Manifest(q.camera, Failed, q.now, q.duration, q.motion,
                                                                     None, None, Some(code))],
                                   s.memory.requests[q.request := id])
            && t.disk == Disk(t.memory, s.disk.media, s.disk.partials)
            && t.tasks == s.tasks && t.up && t.deleting.None?
  {
    hide Spool, StartError;
    var aborted := Act(captured, l, Abort(id, code, true));
    assert aborted.disk.partials == s.disk.partials && aborted.tasks - {id} == s.tasks;
    assert Act(aborted, l, MarkFailed(id, Synced)).memory.manifests
        == s.memory.manifests[id := Manifest(q.camera, Failed, q.now, q.duration, q.motion, None, None, Some(code))];
  }

  /**
   * A capture that ends in an error: the recording stays in the journal, failed with that error and without size and
   * digest; its partial file is gone and there is no media file.
   */
  lemma RecordingFails(s: System, l: Limits, q: Request, id: Id, frames: seq<seq<Byte>>, code: string)
    requires Accepted(s, l, q, id) && StartError(s, l, q.camera, q.duration, q.request).None?
    requires Frames(frames) && |Concat(frames)| <= l.maxBytes
    ensures var t := Run(s, l, Opening(q, id) + Appending(id, frames)
                               + [Abort(id, code, true), MarkFailed(id, Synced)]);
            && t.memory == Journal(s.memory.manifests[id := Manifest(q.camera, Failed, q.now, q.duration, q.motion,
                                                                     None, None, Some(code))],
                                   s.memory.requests[q.request := id])
            && t.disk == Disk(t.memory, s.disk.media, s.disk.partials)
            && t.tasks == s.tasks && t.up && t.deleting.None?
  {
    hide StartError, Spool, Run, Concat, Act;
    var content := Concat(frames);
    var begun := Run(s, l, Opening(q, id));
    OpeningRuns(s, l, q, id);
    AppendsRun(begun, l, id, [], frames);
    assert [] + content == content;
    RunAppend(s, l, Opening(q, id), Appending(id, frames));
    var captured := Run(s, l, Opening(q, id) + Appending(id, frames));
    RunAppend(s, l, Opening(q, id) + Appending(id, frames), [Abort(id, code, true), MarkFailed(id, Synced)]);
    RunAppend(captured, l, [Abort(id, code, true)], [MarkFailed(id, Synced)]);
    RunOne(captured, l, Abort(id, code, true));
    RunOne(Act(captured, l, Abort(id, code, true)), l, MarkFailed(id, Synced));
    assert [Abort(id, code, true)] + [MarkFailed(id, Synced)] == [Abort(id, code, true), MarkFailed(id, Synced)];
    FailingRuns(s, captured, l, q, id, content, code);
  }

  /** Acknowledging a finished recording removes its file, its manifest and the request that names it, and no other. */
  lemma AcknowledgedIsGone(s: System, l: Limits, id: Id)
    requires s.up && s.deleting.None? && id in s.memory.manifests
    requires s.memory.manifests[id].status == Ready || s.memory.manifests[id].status == Failed
    ensures var t := Act(Act(s, l, Delete(id)), l, Forget(id, Synced));
            && t.memory.manifests == s.memory.manifests - {id} && t.disk.journal == t.memory
            && t.disk.media == s.disk.media - {id} && t.disk.partials == s.disk.partials
            && (forall r :: r in t.memory.requests <==> r in s.memory.requests && s.memory.requests[r] != id)
            && (forall r :: r in t.memory.requests ==> t.memory.requests[r] == s.memory.requests[r])
            && t.tasks == s.tasks && t.up && t.deleting.None?
  {
    hide StartError, Spool;
  }

  /** If the file is gone but its removal was not synced, the recording stays in the journal, without its file. */
  lemma RemovalGivenUp(s: System, l: Limits, id: Id)
    requires s.up && s.deleting.None? && id in s.memory.manifests
    requires s.memory.manifests[id].status == Ready || s.memory.manifests[id].status == Failed
    ensures Act(Act(s, l, Delete(id)), l, GiveUp(id)) == s.(disk := s.disk.(media := s.disk.media - {id}))
  {
    hide StartError, Spool;
  }

  /** The end of a saved recording writes the journal once more, and with it what an earlier write had left out. */
  lemma EndWritesJournal(s: System, l: Limits, id: Id)
    requires s.up && s.deleting.None? && id in s.tasks && s.tasks[id] == Finished && id in s.memory.manifests
    ensures Act(s, l, Flush(id, Synced))
         == s.(disk := s.disk.(journal := s.memory), tasks := s.tasks - {id})
  {
    hide StartError, Spool;
  }

  /**
   * A new request is accepted iff its duration is from 1 second to the limit, its id has 8 to 128 characters, the
   * camera is known and has no recording pending or running, and the spool has room for one of maximal size; otherwise
   * nothing changes.
   */
  lemma RequestAcceptedIff(s: System, l: Limits, q: Request, id: Id)
    requires s.up && s.deleting.None? && id !in s.issued && q.request !in s.memory.requests
    ensures var t := Act(s, l, Start(q.camera, q.duration, q.request, q.motion, q.now, id, Synced, true));
            (id in t.issued
             <==> && 1 <= q.duration <= l.maxDuration && 8 <= |q.request| <= 128 && q.camera in l.cameras
                  && (forall x :: x in s.memory.manifests && s.memory.manifests[x].camera == q.camera ==>
                        s.memory.manifests[x].status == Ready || s.memory.manifests[x].status == Failed)
                  && Spool(s.disk.media) + l.maxBytes <= l.quota)
            && (id !in t.issued ==> t == s)
    ensures var e := StartError(s, l, q.camera, q.duration, q.request);
            e.Some? ==>
              if !(1 <= q.duration <= l.maxDuration && 8 <= |q.request| <= 128) then e == Some(RecordingInvalid)
              else if q.camera !in l.cameras then e == Some(CameraNotFound)
              else if forall x :: x in s.memory.manifests && s.memory.manifests[x].camera == q.camera ==>
                        s.memory.manifests[x].status == Ready || s.memory.manifests[x].status == Failed
              then e == Some(RecordingCapacity)
              else e == Some(RecordingActive)
  {
    hide Spool;
  }

  /** A request that is known is answered with its recording if camera and duration are the same, else refused. */
  lemma KnownRequestAnswered(s: System, l: Limits, q: Request, id: Id)
    requires s.up && s.deleting.None? && q.request in s.memory.requests
    requires s.memory.requests[q.request] in s.memory.manifests
    ensures Act(s, l, Start(q.camera, q.duration, q.request, q.motion, q.now, id, Synced, true)) == s
    ensures var known := s.memory.manifests[s.memory.requests[q.request]];
            StartError(s, l, q.camera, q.duration, q.request)
            == if !(1 <= q.duration <= l.maxDuration && 8 <= |q.request| <= 128) then Some(RecordingInvalid)
               else if q.camera !in l.cameras then Some(CameraNotFound)
               else if known.camera == q.camera && known.duration == q.duration then None
               else Some(RecordingInvalid)
  {
    hide Spool;
  }
}
