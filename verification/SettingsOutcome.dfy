/**
 * What a call that changes one setting leaves behind when requests fail, lose their answers or take effect late: the
 * listing is the old one or the changed one, and which of the two is decided exactly.
 */
module SettingsOutcome {
  import opened Wrappers
  import opened CameraSettings
  import opened SettingsClient

  lemma {:induction false} ApplyAppend(r: Response, first: seq<Patch>, second: seq<Patch>)
    ensures ApplyAll(r, first + second) == ApplyAll(ApplyAll(r, first), second)
    decreases |second|
  {
    hide Apply;
    if second == [] {
      assert first + second == first;
    } else {
      var n := |second| - 1;
      ApplyAppend(r, first, second[..n]);
      assert (first + second)[..|first| + n] == first + second[..n];
    }
  }

  lemma AlikeSameListing(r: Response, s: Response, camera: Camera)
    requires Alike(r, s)
    ensures Fields(r, camera) == Fields(s, camera)
  {
    forall key
      ensures FieldOf(r, camera, key) == FieldOf(s, camera, key)
    {
      AlikeSameField(r, s, camera, key);
    }
    hide FieldOf, Alike;
    SameFieldsSameListing(r, s, camera, ORDER);
  }

  // ---------- which write decides

  predicate EndsWith(patches: seq<Patch>, patch: Patch) {
    patches != [] && patches[|patches| - 1] == patch
  }

  /** What the document reads like after writes of a change and of the old entry, in any order. */
  lemma {:induction false} LastWriteDecides(r: Response, patches: seq<Patch>, change: Patch, back: Option<Patch>)
    requires Proper(change)
    requires back.Some? ==> Proper(back.value) && SameTarget(change, back.value) && Alike(Apply(r, back.value), r)
    requires forall p :: p in patches ==> p == change || back == Some(p)
    ensures Alike(ApplyAll(r, patches), if EndsWith(patches, change) then Apply(r, change) else r)
    decreases |patches|
  {
    if patches != [] {
      var n := |patches| - 1;
      assert patches[n] in patches && forall p :: p in patches[..n] ==> p in patches;
      LastWriteDecides(r, patches[..n], change, back);
      hide Apply, Alike, Proper, SameTarget;
      OneMoreWrite(r, ApplyAll(r, patches[..n]), EndsWith(patches[..n], change), patches[n], change, back);
    }
  }

  lemma OneMoreWrite(r: Response, s: Response, changed: bool, q: Patch, change: Patch, back: Option<Patch>)
    requires Proper(change) && (q == change || back == Some(q))
    requires back.Some? ==> Proper(back.value) && SameTarget(change, back.value) && Alike(Apply(r, back.value), r)
    requires Alike(s, if changed then Apply(r, change) else r)
    ensures Alike(Apply(s, q), if q == change then Apply(r, change) else r)
  {
    var base := if changed then Apply(r, change) else r;
    ApplyKeepsAlike(s, base, q);
    assert SameTarget(change, q);
    hide Apply, Alike, Proper, SameTarget;
    if changed {
      LaterWriteDecides(r, change, q);
      AlikeTransitive(Apply(s, q), Apply(base, q), Apply(r, q));
    }
    if q != change {
      AlikeTransitive(Apply(s, q), Apply(r, q), r);
    }
  }

  // ---------- the call, request by request

  /** Since the document was `r`, only writes from `allowed` took effect or are on their way. */
  ghost predicate Tracks(w: World, r: Response, allowed: set<Patch>) {
    && w.now == ApplyAll(r, w.landed)
    && (forall p :: p in w.landed ==> p in allowed) && (forall p :: p in w.late ==> p in allowed)
  }

  lemma ServedTracks(w: World, r: Response, allowed: set<Patch>)
    requires Tracks(w, r, allowed)
    ensures Tracks(Served(w), r, allowed)
  {
    hide ApplyAll;
    ApplyAppend(r, w.landed, w.late);
  }

  lemma SentTracks(w: World, r: Response, allowed: set<Patch>, patch: Patch)
    requires Tracks(w, r, allowed) && patch in allowed
    ensures Tracks(Sent(w, patch), r, allowed)
  {
    ServedTracks(w, r, allowed);
    var t := Served(w);
    hide Apply, Served;
    assert (t.landed + [patch])[..|t.landed|] == t.landed;
  }

  lemma {:induction false} VerifiedTracks(w: World, r: Response, allowed: set<Patch>, camera: Camera, key: Key,
                                          expected: Json, attempts: nat)
    requires Tracks(w, r, allowed)
    ensures Tracks(Verified(w, camera, key, expected, attempts).world, r, allowed)
    decreases attempts
  {
    hide Tracks, Served, Shown, Answers, Fields;
    if attempts > 0 {
      ServedTracks(w, r, allowed);
      VerifiedTracks(Served(w), r, allowed, camera, key, expected, attempts - 1);
    }
  }

  /** With at most one write sent, the document is the old one or the one after it. */
  ghost predicate AtMostOnce(w: World, r: Response, change: Patch) {
    && (w.landed + w.late == [] || w.landed + w.late == [change])
    && w.now == if w.landed == [] then r else Apply(r, change)
  }

  lemma ServedOnce(w: World, r: Response, change: Patch)
    requires AtMostOnce(w, r, change)
    ensures AtMostOnce(Served(w), r, change)
  {
    hide Apply;
    if w.late != [] {
      assert |w.landed + w.late| == 1;
      assert w.landed == [] && w.late[0] == (w.landed + w.late)[0];
      assert ApplyAll(w.now, w.late) == Apply(r, change);
    }
  }

  lemma {:induction false} VerifiedOnce(w: World, r: Response, change: Patch, camera: Camera, key: Key,
                                        expected: Json, attempts: nat)
    requires AtMostOnce(w, r, change)
    ensures var reply := Verified(w, camera, key, expected, attempts);
            && AtMostOnce(reply.world, r, change)
            && (reply.result.Ok? && reply.result.value.Some? ==>
                  Shown(reply.world.now, camera, key, expected)
                  && reply.result.value.value == Fields(reply.world.now, camera))
    decreases attempts
  {
    hide AtMostOnce, Served, Shown, Answers, Fields;
    if attempts > 0 {
      ServedOnce(w, r, change);
      VerifiedOnce(Served(w), r, change, camera, key, expected, attempts - 1);
    }
  }

  /** The call gets as far as asking for a write: the change is accepted and is not what is already shown. */
  predicate Attempted(r: Response, camera: Camera, key: Key, value: Json) {
    && Change(r, camera, key, value).Ok?
    && Validated(FieldOf(r, camera, key).value, value).value != FieldOf(r, camera, key).value.value
  }

  /** The request for writing the old entry back. */
  function Back(r: Response, camera: Camera, key: Key): Result<Patch, SettingError>
    requires VendorKeyOf(camera, key).Some? && VendorKeyOf(camera, key).value in r.config
  {
    Asked(r, camera, key, VendorKeyOf(camera, key).value, r.config[VendorKeyOf(camera, key).value])
  }

  function Allowed(r: Response, camera: Camera, key: Key, change: Patch): set<Patch>
    requires VendorKeyOf(camera, key).Some? && VendorKeyOf(camera, key).value in r.config
  {
    {change} + if Back(r, camera, key).Ok? then {Back(r, camera, key).value} else {}
  }

  lemma ChangeIsAsked(r: Response, camera: Camera, key: Key, value: Json) returns (encoded: Json)
    requires Change(r, camera, key, value).Ok?
    ensures VendorKeyOf(camera, key).Some? && VendorKeyOf(camera, key).value in r.config
    ensures Asked(r, camera, key, VendorKeyOf(camera, key).value, encoded) == Change(r, camera, key, value)
  {
    hide FieldOf, Validated, Encode, VendorKeyOf, Asked;
    var vendor := VendorKeyOf(camera, key).value;
    encoded := Encode(key, r.config[vendor], Validated(FieldOf(r, camera, key).value, value).value).value;
  }

  lemma RequestsHitTheSame(r: Response, camera: Camera, key: Key, vendor: VendorKey, one: Json, other: Json)
    requires Asked(r, camera, key, vendor, one).Ok? && Asked(r, camera, key, vendor, other).Ok?
    ensures SameTarget(Asked(r, camera, key, vendor, one).value, Asked(r, camera, key, vendor, other).value)
  {
    hide BoolValue, ThresholdBody;
  }

  lemma RequestsOfCall(r: Response, camera: Camera, key: Key, value: Json)
    requires Change(r, camera, key, value).Ok?
    ensures VendorKeyOf(camera, key).Some? && VendorKeyOf(camera, key).value in r.config
    ensures var change := Change(r, camera, key, value).value;
            var vendor := VendorKeyOf(camera, key).value;
            var back := Back(r, camera, key);
            && Changed(r, camera, key, value) == Ok(Apply(r, change)) && Proper(change)
            && Asked(Apply(r, change), camera, key, vendor, r.config[vendor]) == back
            && (back.Ok? ==> Proper(back.value) && SameTarget(change, back.value) && Alike(Apply(r, back.value), r))
  {
    var encoded := ChangeIsAsked(r, camera, key, value);
    hide Change, VendorKeyOf, Alike, Apply, Asked, Proper, SameTarget;
    WritingBackIff(r, camera, key, value);
    RequestIsProper(r, camera, key, encoded);
    if Back(r, camera, key).Ok? {
      var vendor := VendorKeyOf(camera, key).value;
      RequestIsProper(r, camera, key, r.config[vendor]);
      RequestsHitTheSame(r, camera, key, vendor, encoded, r.config[vendor]);
    }
  }

  lemma OnceTracks(w: World, r: Response, change: Patch, allowed: set<Patch>)
    requires AtMostOnce(w, r, change) && change in allowed
    ensures Tracks(w, r, allowed)
  {
    if w.landed != [] {
      assert w.landed + w.late == [change] && |w.landed| == 1;
      assert w.landed == [change] && w.late == [];
      assert w.landed[..0] == [];
    } else {
      assert w.landed + w.late == w.late;
    }
  }

  /** The first write asks for the change, if it asks for anything. */
  lemma WriteStage(w: World, camera: Camera, key: Key, vendor: VendorKey, encoded: Json,
                   change: Result<Patch, SettingError>)
    requires w.late == [] && w.landed == [] && Asked(w.now, camera, key, vendor, encoded) == change
    ensures var t := Wrote(w, camera, key, vendor, encoded).world;
            if change.Ok? then AtMostOnce(t, w.now, change.value) else t.now == w.now && t.late == t.landed == []
  {
    hide Asked, Apply;
    if IsThreshold(key) {
      assert Served(w).now == w.now && Served(w).late == Served(w).landed == [];
    }
  }

  lemma BackStage(w: World, r: Response, camera: Camera, key: Key, change: Patch)
    requires VendorKeyOf(camera, key).Some? && VendorKeyOf(camera, key).value in r.config
    requires var vendor := VendorKeyOf(camera, key).value;
             Asked(Apply(r, change), camera, key, vendor, r.config[vendor]) == Back(r, camera, key)
    requires AtMostOnce(w, r, change)
    ensures var vendor := VendorKeyOf(camera, key).value;
            Tracks(Wrote(w, camera, key, vendor, r.config[vendor]).world, r, Allowed(r, camera, key, change))
  {
    var vendor := VendorKeyOf(camera, key).value;
    var allowed := Allowed(r, camera, key, change);
    hide Asked, Apply, Tracks, VendorKeyOf, Served;
    ServedOnce(w, r, change);
    OnceTracks(w, r, change, allowed);
    OnceTracks(Served(w), r, change, allowed);
    WroteTracks(w, r, allowed, camera, key, vendor, r.config[vendor]);
  }

  lemma WroteTracks(w: World, r: Response, allowed: set<Patch>, camera: Camera, key: Key, vendor: VendorKey,
                    value: Json)
    requires Tracks(w, r, allowed) && Tracks(Served(w), r, allowed)
    requires var asked := Asked(w.now, camera, key, vendor, value); asked.Ok? ==> asked.value in allowed
    requires var asked := Asked(Served(w).now, camera, key, vendor, value); asked.Ok? ==> asked.value in allowed
    ensures Tracks(Wrote(w, camera, key, vendor, value).world, r, allowed)
  {
    hide Asked, Apply, Tracks, Served, Sent, Answers;
    var asked := Asked(w.now, camera, key, vendor, value);
    if !IsThreshold(key) {
      if asked.Ok? {
        SentTracks(w, r, allowed, asked.value);
      }
    } else {
      asked := Asked(Served(w).now, camera, key, vendor, value);
      if asked.Ok? {
        SentTracks(Served(w), r, allowed, asked.value);
      }
    }
  }

  /** The checks before any write fail, or there is nothing to do. */
  predicate EndsEarly(r: Response, camera: Camera, key: Key, value: Json) {
    var field := FieldOf(r, camera, key);
    field.None?
    || (var desired := Validated(field.value, value);
        desired.Err? || desired.value == field.value.value
        || (var vendor := VendorKeyOf(camera, key);
            vendor.None? || vendor.value !in r.config
            || Encode(key, r.config[vendor.value], desired.value).Err?))
  }

  /** The parts of a call that gets past its checks. */
  lemma ReachesWrite(w: World, camera: Camera, key: Key, value: Json)
    returns (vendor: VendorKey, encoded: Json, was: Json, desired: Json)
    requires w.late == [] && w.landed == [] && Answers(w) && !EndsEarly(w.now, camera, key, value)
    ensures VendorKeyOf(camera, key) == Some(vendor) && vendor in w.now.config
    ensures Asked(w.now, camera, key, vendor, encoded) == Change(w.now, camera, key, value)
    ensures FieldOf(w.now, camera, key).Some? && was == FieldOf(w.now, camera, key).value.value && was != desired
    ensures Validated(FieldOf(w.now, camera, key).value, value) == Ok(desired)
    ensures Updated(w, camera, key, value, Fields(w.now, camera))
         == WrittenAndVerified(Served(w), camera, key, vendor, w.now.config[vendor], encoded, was, desired)
  {
    hide FieldOf, Validated, Encode, VendorKeyOf, Asked, Fields, WrittenAndVerified, Answers;
    assert Served(w).now == w.now;
    vendor := VendorKeyOf(camera, key).value;
    was := FieldOf(w.now, camera, key).value.value;
    desired := Validated(FieldOf(w.now, camera, key).value, value).value;
    encoded := Encode(key, w.now.config[vendor], desired).value;
  }

  lemma AttemptedReaches(r: Response, camera: Camera, key: Key, value: Json)
    ensures Attempted(r, camera, key, value)
            <==> !EndsEarly(r, camera, key, value) && Change(r, camera, key, value).Ok?
  {
    hide FieldOf, Validated, Encode, VendorKeyOf, Asked;
  }

  ghost predicate Untouched(reply: Reply<seq<SettingField>>, w: World) {
    reply.world.now == w.now && reply.world.late == [] && reply.world.landed == []
  }

  /** The value asked for is the one that already shows. */
  predicate AlreadyShown(r: Response, camera: Camera, key: Key, value: Json) {
    var field := FieldOf(r, camera, key);
    field.Some? && Validated(field.value, value) == Ok(field.value.value)
  }

  lemma NothingAsked(w: World, camera: Camera, key: Key, value: Json, revision: seq<SettingField>)
    requires w.late == [] && w.landed == []
    requires !Answers(w) || revision != Fields(w.now, camera) || !Attempted(w.now, camera, key, value)
    ensures var reply := Updated(w, camera, key, value, revision);
            && Untouched(reply, w)
            && (reply.result.Ok? <==>
                  Answers(w) && revision == Fields(w.now, camera) && AlreadyShown(w.now, camera, key, value))
            && (reply.result.Ok? ==> reply.result.value == revision)
  {
    assert Served(w).now == w.now && Served(w).late == [] && Served(w).landed == [];
    hide FieldOf, Validated, Encode, VendorKeyOf, Asked, Fields, WrittenAndVerified, Answers, Served, Change,
      AlreadyShown,
      Attempted;
    if Answers(w) && revision == Fields(w.now, camera) {
      NotAttempted(w, camera, key, value);
    }
  }

  lemma EarlyEnd(w: World, camera: Camera, key: Key, value: Json)
    requires w.late == [] && w.landed == [] && Answers(w) && EndsEarly(w.now, camera, key, value)
    ensures var reply := Updated(w, camera, key, value, Fields(w.now, camera));
            && Untouched(reply, w) && (reply.result.Ok? <==> AlreadyShown(w.now, camera, key, value))
            && (reply.result.Ok? ==> reply.result.value == Fields(w.now, camera))
  {
    var t := Served(w);
    assert t.now == w.now && t.late == [] && t.landed == [];
    hide FieldOf, Validated, Encode, VendorKeyOf, Asked, Fields, WrittenAndVerified, Answers, Served;
  }

  lemma NotAttempted(w: World, camera: Camera, key: Key, value: Json)
    requires w.late == [] && w.landed == [] && Answers(w) && !Attempted(w.now, camera, key, value)
    ensures var reply := Updated(w, camera, key, value, Fields(w.now, camera));
            && Untouched(reply, w) && (reply.result.Ok? <==> AlreadyShown(w.now, camera, key, value))
            && (reply.result.Ok? ==> reply.result.value == Fields(w.now, camera))
  {
    AttemptedReaches(w.now, camera, key, value);
    hide FieldOf, Validated, Encode, VendorKeyOf, Asked, Fields, Updated, Answers, Attempted, EndsEarly, Change;
    if EndsEarly(w.now, camera, key, value) {
      EarlyEnd(w, camera, key, value);
    } else {
      var vendor, encoded, was, desired := ReachesWrite(w, camera, key, value);
      RefusedRequest(w.(net := Served(w).net), camera, key, vendor, w.now.config[vendor], encoded, was, desired);
    }
  }

  /** A request that cannot be completed is refused before anything is written. */
  lemma RefusedRequest(w: World, camera: Camera, key: Key, vendor: VendorKey, current: Json, encoded: Json, was: Json,
                       desired: Json)
    requires w.late == [] && w.landed == [] && Asked(w.now, camera, key, vendor, encoded).Err?
    ensures var reply := WrittenAndVerified(w, camera, key, vendor, current, encoded, was, desired);
            reply.result.Err? && Untouched(reply, w)
  {
    WriteStage(w, camera, key, vendor, encoded, Asked(w.now, camera, key, vendor, encoded));
    assert Served(w).now == w.now;
    hide Asked, Apply, Verified, Undone, Answers, Sent, Served;
  }

  /** The listing after the writes `landed`. */
  function Listed(r: Response, camera: Camera, key: Key, value: Json, landed: seq<Patch>): seq<SettingField> {
    var change := Change(r, camera, key, value);
    Fields(if change.Ok? && EndsWith(landed, change.value) then Apply(r, change.value) else r, camera)
  }

  lemma TrackedListing(w: World, r: Response, camera: Camera, key: Key, value: Json)
    requires Change(r, camera, key, value).Ok?
    requires VendorKeyOf(camera, key).Some? && VendorKeyOf(camera, key).value in r.config
    requires Tracks(w, r, Allowed(r, camera, key, Change(r, camera, key, value).value))
    ensures Fields(w.now, camera) == Listed(r, camera, key, value, w.landed)
    ensures Fields(Arrived(w).now, camera) == Listed(r, camera, key, value, w.landed + w.late)
  {
    hide Change, VendorKeyOf, Asked, Apply, Fields, Alike, Proper, SameTarget;
    RequestsOfCall(r, camera, key, value);
    var change := Change(r, camera, key, value).value;
    var back := if Back(r, camera, key).Ok? then Some(Back(r, camera, key).value) else None;
    hide Back;
    LastWriteDecides(r, w.landed, change, back);
    LastWriteDecides(r, w.landed + w.late, change, back);
    ApplyAppend(r, w.landed, w.late);
    AlikeSameListing(w.now, if EndsWith(w.landed, change) then Apply(r, change) else r, camera);
    AlikeSameListing(Arrived(w).now, if EndsWith(w.landed + w.late, change) then Apply(r, change) else r, camera);
  }

  /** Up to the read-back at most one write was sent; what is confirmed is the changed document. */
  lemma FirstStages(t: World, camera: Camera, key: Key, vendor: VendorKey, encoded: Json, desired: Json, change: Patch)
    requires t.late == [] && t.landed == [] && Asked(t.now, camera, key, vendor, encoded) == Ok(change)
    requires !Shown(t.now, camera, key, desired)
    ensures var w1 := Wrote(t, camera, key, vendor, encoded).world;
            var read := Verified(w1, camera, key, desired, VERIFY_ATTEMPTS);
            && AtMostOnce(w1, t.now, change) && AtMostOnce(read.world, t.now, change)
            && (read.result.Ok? && read.result.value.Some? ==>
                  && read.world.landed == [change] && read.world.late == []
                  && Served(read.world) == read.world.(net := Served(read.world).net)
                  && read.result.value.value == Fields(read.world.now, camera))
  {
    hide Asked, Fields, Answers, Wrote, Shown, Apply;
    WriteStage(t, camera, key, vendor, encoded, Ok(change));
    var w1 := Wrote(t, camera, key, vendor, encoded).world;
    VerifiedOnce(w1, t.now, change, camera, key, desired, VERIFY_ATTEMPTS);
    OneLanded(Verified(w1, camera, key, desired, VERIFY_ATTEMPTS).world, t.now, change);
    hide Verified, Served, AtMostOnce;
  }

  lemma AllStages(t: World, camera: Camera, key: Key, vendor: VendorKey, encoded: Json, was: Json, desired: Json,
                  change: Patch)
    requires t.late == [] && t.landed == [] && Asked(t.now, camera, key, vendor, encoded) == Ok(change)
    requires !Shown(t.now, camera, key, desired)
    requires VendorKeyOf(camera, key) == Some(vendor) && vendor in t.now.config
    requires Asked(Apply(t.now, change), camera, key, vendor, t.now.config[vendor]) == Back(t.now, camera, key)
    ensures var reply := WrittenAndVerified(t, camera, key, vendor, t.now.config[vendor], encoded, was, desired);
            && Tracks(reply.world, t.now, Allowed(t.now, camera, key, change))
            && (reply.result.Ok? ==>
                  && reply.world.landed == [change] && reply.world.late == []
                  && reply.result.value == Fields(reply.world.now, camera))
  {
    var r := t.now;
    var allowed := Allowed(r, camera, key, change);
    FirstStages(t, camera, key, vendor, encoded, desired, change);
    var w1 := Wrote(t, camera, key, vendor, encoded).world;
    var w2 := Verified(w1, camera, key, desired, VERIFY_ATTEMPTS).world;
    hide Asked, Apply, Fields, Answers, Shown, Served, Wrote, Verified, Undone, Tracks, AtMostOnce, VendorKeyOf, Back;
    OnceTracks(w1, r, change, allowed);
    OnceTracks(w2, r, change, allowed);
    ServedTracks(w2, r, allowed);
    UndoneTracks(w2, r, camera, key, was, change);
    hide Allowed;
  }

  lemma UndoneTracks(w: World, r: Response, camera: Camera, key: Key, was: Json, change: Patch)
    requires VendorKeyOf(camera, key).Some? && VendorKeyOf(camera, key).value in r.config
    requires var vendor := VendorKeyOf(camera, key).value;
             Asked(Apply(r, change), camera, key, vendor, r.config[vendor]) == Back(r, camera, key)
    requires AtMostOnce(w, r, change)
    ensures var vendor := VendorKeyOf(camera, key).value;
            Tracks(Undone(w, camera, key, vendor, r.config[vendor], was).world, r, Allowed(r, camera, key, change))
  {
    hide Asked, Apply, Wrote, Verified, Tracks, AtMostOnce, VendorKeyOf, Back, Allowed;
    var vendor := VendorKeyOf(camera, key).value;
    BackStage(w, r, camera, key, change);
    VerifiedTracks(Wrote(w, camera, key, vendor, r.config[vendor]).world, r, Allowed(r, camera, key, change), camera,
                   key, was, VERIFY_ATTEMPTS);
  }

  /** What every attempted call keeps. */
  lemma AttemptTracks(w: World, camera: Camera, key: Key, value: Json)
    requires w.late == [] && w.landed == [] && Answers(w) && Attempted(w.now, camera, key, value)
    ensures VendorKeyOf(camera, key).Some? && VendorKeyOf(camera, key).value in w.now.config
    ensures var reply := Updated(w, camera, key, value, Fields(w.now, camera));
            var change := Change(w.now, camera, key, value).value;
            && Tracks(reply.world, w.now, Allowed(w.now, camera, key, change))
            && (reply.result.Ok? ==>
                  && reply.world.landed == [change] && reply.world.late == []
                  && reply.result.value == Fields(reply.world.now, camera))
  {
    hide FieldOf, Validated, Encode, VendorKeyOf, Asked, Apply, Fields, Shown, Alike, Proper, SameTarget, Answers,
      Tracks,
      Allowed, Back, Updated, WrittenAndVerified, Change;
    AttemptedReaches(w.now, camera, key, value);
    var vendor, encoded, was, desired := ReachesWrite(w, camera, key, value);
    RequestsOfCall(w.now, camera, key, value);
    ListingsDiffer(w.now, camera, key, value);
    assert Served(w).now == w.now && Served(w).late == [] && Served(w).landed == [];
    AllStages(Served(w), camera, key, vendor, encoded, was, desired, Change(w.now, camera, key, value).value);
  }

  lemma OneLanded(w: World, r: Response, change: Patch)
    requires AtMostOnce(w, r, change)
    ensures w.now != r ==> w.landed == [change] && w.late == [] && Served(w) == w.(net := Served(w).net)
  {
    hide Apply;
    if w.landed != [] {
      assert w.landed + w.late == [change] && |w.landed| == 1;
    }
  }

  /** The change shows in the listing, and did not before. */
  lemma ListingsDiffer(r: Response, camera: Camera, key: Key, value: Json)
    requires Attempted(r, camera, key, value)
    ensures var desired := Validated(FieldOf(r, camera, key).value, value).value;
            var s := Apply(r, Change(r, camera, key, value).value);
            && Shown(s, camera, key, desired) && !Shown(r, camera, key, desired)
            && Fields(s, camera) != Fields(r, camera)
  {
    var was := FieldOf(r, camera, key).value;
    var desired := Validated(was, value).value;
    var s := Apply(r, Change(r, camera, key, value).value);
    ChangeIsReadBack(r, camera, key, value);
    KindOfKey(r, camera, key);
    assert Changed(r, camera, key, value) == Ok(s);
    hide Change, Changed, Apply, FieldOf, Validated, Fields;
    ListingIsComplete(s, camera);
    ListingIsComplete(r, camera);
    var now := FieldOf(s, camera, key).value;
    assert now in Fields(s, camera) && now.key == key && now.value == desired;
  }

  // ---------- over every network

  /**
   * Whatever the network does, the listing is the old one, or the changed one exactly when the last write that took
   * effect is the change; the same holds once the late writes have arrived.
   */
  lemma ListingIsOldOrNew(w: World, camera: Camera, key: Key, value: Json, revision: seq<SettingField>)
    requires w.late == [] && w.landed == []
    ensures var t := Updated(w, camera, key, value, revision).world;
            && Fields(t.now, camera) == Listed(w.now, camera, key, value, t.landed)
            && Fields(Arrived(t).now, camera) == Listed(w.now, camera, key, value, t.landed + t.late)
  {
    var t := Updated(w, camera, key, value, revision).world;
    if Answers(w) && revision == Fields(w.now, camera) && Attempted(w.now, camera, key, value) {
      AttemptTracks(w, camera, key, value);
      hide Updated, Tracks, Fields, Allowed, Answers, Listed, Change, VendorKeyOf;
      TrackedListing(t, w.now, camera, key, value);
    } else {
      NothingAsked(w, camera, key, value, revision);
      hide Updated, Fields, Apply, Change, Attempted, Answers;
    }
  }

  /** A change that cannot be asked for changes nothing; one that can shows in the listing. */
  lemma ChangedIffItEndsWith(w: World, camera: Camera, key: Key, value: Json, revision: seq<SettingField>)
    requires w.late == [] && w.landed == [] && Attempted(w.now, camera, key, value)
    ensures var t := Updated(w, camera, key, value, revision).world;
            Fields(t.now, camera) != Fields(w.now, camera)
            <==> EndsWith(t.landed, Change(w.now, camera, key, value).value)
  {
    hide Updated, Fields, Apply, Change, FieldOf, Validated;
    ListingIsOldOrNew(w, camera, key, value, revision);
    ListingsDiffer(w.now, camera, key, value);
  }

  /** The document shows the accepted value, and every other field as in `r`. */
  ghost predicate ShowsChange(now: Response, r: Response, camera: Camera, key: Key, value: Json) {
    && FieldOf(r, camera, key).Some?
    && (var was := FieldOf(r, camera, key).value;
        Validated(was, value).Ok? && Shows(now, camera, was, Validated(was, value).value))
    && forall other :: other != key ==> FieldOf(now, camera, other) == FieldOf(r, camera, other)
  }

  lemma ChangedShows(r: Response, camera: Camera, key: Key, value: Json)
    requires Change(r, camera, key, value).Ok?
    ensures ShowsChange(Apply(r, Change(r, camera, key, value).value), r, camera, key, value)
  {
    ChangeIsReadBack(r, camera, key, value);
    ChangedField(r, camera, key, value);
    var now := Changed(r, camera, key, value).value;
    hide Change, Apply, FieldOf, Validated, Shows;
    forall other | other != key
      ensures FieldOf(now, camera, other) == FieldOf(r, camera, other)
    {
      ChangeLeavesOthers(r, camera, key, value, other);
    }
  }

  lemma AlreadyShows(r: Response, camera: Camera, key: Key, value: Json)
    requires AlreadyShown(r, camera, key, value)
    ensures ShowsChange(r, r, camera, key, value)
  {
    KindOfKey(r, camera, key);
    hide FieldOf, Validated;
  }

  /** Success means the value shows and no other field has changed, with nothing on its way any more. */
  lemma SuccessIsShown(w: World, camera: Camera, key: Key, value: Json, revision: seq<SettingField>)
    requires w.late == [] && w.landed == [] && Updated(w, camera, key, value, revision).result.Ok?
    ensures var reply := Updated(w, camera, key, value, revision);
            && revision == Fields(w.now, camera) && reply.result.value == Fields(reply.world.now, camera)
            && reply.world.late == [] && ShowsChange(reply.world.now, w.now, camera, key, value)
  {
    hide Updated, Fields, Attempted, AlreadyShown, Allowed, Answers, VendorKeyOf, ShowsChange, Apply, Change;
    if Answers(w) && revision == Fields(w.now, camera) && Attempted(w.now, camera, key, value) {
      AttemptTracks(w, camera, key, value);
      AttemptedChanges(w.now, camera, key, value);
      OneApplied(w.now, Change(w.now, camera, key, value).value);
      ChangedShows(w.now, camera, key, value);
    } else {
      NothingAsked(w, camera, key, value, revision);
      AlreadyShows(w.now, camera, key, value);
    }
  }

  lemma OneApplied(r: Response, patch: Patch)
    ensures ApplyAll(r, [patch]) == Apply(r, patch)
  {
    hide Apply;
    assert [patch][..0] == [];
  }

  lemma AttemptedChanges(r: Response, camera: Camera, key: Key, value: Json)
    requires Attempted(r, camera, key, value)
    ensures Change(r, camera, key, value).Ok?
  {
  }

  lemma ChangedField(r: Response, camera: Camera, key: Key, value: Json)
    requires Change(r, camera, key, value).Ok?
    ensures FieldOf(r, camera, key).Some? && Validated(FieldOf(r, camera, key).value, value).Ok?
  {
    hide FieldOf, Validated, Encode, VendorKeyOf, Asked;
  }

  // ---------- the requests of a call

  function Out(net: seq<Event>, i: nat): Outcome {
    EventAt(net, i).outcome
  }

  /** The place of the write among the requests; a threshold reads once more before it. */
  function PostAt(key: Key): nat {
    if IsThreshold(key) then 2 else 1
  }

  predicate Reached(net: seq<Event>, key: Key) {
    Answered(Out(net, 0)) && (IsThreshold(key) ==> Answered(Out(net, 1)))
  }

  function Drop(net: seq<Event>, n: nat): seq<Event> {
    if n <= |net| then net[n..] else []
  }

  lemma DropAt(net: seq<Event>, n: nat, i: nat)
    ensures EventAt(Drop(net, n), i) == EventAt(net, n + i)
    ensures Drop(Drop(net, n), 1) == Drop(net, n + 1)
  {
  }

  lemma ThresholdNeedsDefault(r: Response, camera: Camera, key: Key, vendor: VendorKey, value: Json)
    requires IsThreshold(key) && Asked(r, camera, key, vendor, value).Ok?
    ensures camera.kind == Default
  {
  }

  /** Writing the old entry back is another request than the change. */
  lemma BackIsNotChange(r: Response, camera: Camera, key: Key, value: Json)
    requires Attempted(r, camera, key, value)
    ensures VendorKeyOf(camera, key).Some? && VendorKeyOf(camera, key).value in r.config
    ensures Back(r, camera, key) != Change(r, camera, key, value)
  {
    hide VendorKeyOf, Alike, Apply, Asked, Proper, SameTarget, Fields, FieldOf, Validated, Change;
    RequestsOfCall(r, camera, key, value);
    ListingsDiffer(r, camera, key, value);
    hide Back;
    var change := Change(r, camera, key, value).value;
    if Back(r, camera, key) == Ok(change) {
      AlikeSameListing(Apply(r, change), r, camera);
    }
  }

  // ---------- a write that comes late

  /** The next `n` requests are answered and nothing arrives before them. */
  predicate Still(net: seq<Event>, n: nat) {
    forall i {:trigger EventAt(net, i)} :: 0 <= i < n ==> EventAt(net, i) == Event(false, Fine)
  }

  lemma StillServed(w: World, n: nat)
    requires 0 < n && Still(w.net, n)
    ensures Served(w) == w.(net := Drop(w.net, 1)) && Answers(w) && Still(Drop(w.net, 1), n - 1)
    ensures forall patch :: Sent(w, patch) == w.(net := Drop(w.net, 1), now := Apply(w.now, patch),
                                                 landed := w.landed + [patch])
  {
    hide Apply;
    assert EventAt(w.net, 0) == Event(false, Fine);
    forall i | 0 <= i < n - 1
      ensures EventAt(Drop(w.net, 1), i) == Event(false, Fine)
    {
      DropAt(w.net, 1, i);
      assert EventAt(w.net, 1 + i) == Event(false, Fine);
    }
  }

  lemma {:induction false} StillVerified(w: World, camera: Camera, key: Key, expected: Json, attempts: nat, n: nat)
    requires attempts <= n && Still(w.net, n)
    ensures var reply := Verified(w, camera, key, expected, attempts);
            && reply.world == w.(net := reply.world.net)
            && (!Shown(w.now, camera, key, expected) ==>
                  reply.result == Ok(None) && Still(reply.world.net, n - attempts))
    decreases attempts
  {
    hide Shown, Fields, Still, Served, Answers, Drop;
    if attempts > 0 {
      StillServed(w, n);
      StillVerified(Served(w), camera, key, expected, attempts - 1, n - 1);
    }
  }

  lemma StillUndone(w: World, camera: Camera, key: Key, vendor: VendorKey, current: Json, was: Json, change: Patch)
    requires Still(w.net, 6) && w.landed == []
    requires var back := Asked(w.now, camera, key, vendor, current); back.Ok? ==> back.value != change
    ensures var t := Undone(w, camera, key, vendor, current, was).world;
            t.late == w.late && !EndsWith(t.landed, change)
  {
    hide Asked, Apply, Verified, Still, Sent, Served, Drop, Answers;
    StillServed(w, 6);
    StillServed(Served(w), 5);
    LastStill(Served(w).net, 5);
    var wrote := Wrote(w, camera, key, vendor, current);
    if wrote.result.Ok? {
      StillVerified(wrote.world, camera, key, was, VERIFY_ATTEMPTS, 4);
    }
  }

  lemma LastStill(net: seq<Event>, n: nat)
    requires 0 < n && Still(net, n)
    ensures Still(net, n - 1)
  {
  }

  /** One write comes late; nothing else goes wrong and nothing arrives while the call lasts. */
  predicate LateWrite(net: seq<Event>, key: Key) {
    && |net| == 13
    && forall i :: 0 <= i < 13 ==> net[i] == Event(false, if i == PostAt(key) then Later else Fine)
  }

  lemma LateThenStill(net: seq<Event>, key: Key)
    requires LateWrite(net, key)
    ensures EventAt(net, 0) == Event(false, Fine) && Still(Drop(net, PostAt(key) + 1), 10)
    ensures IsThreshold(key) ==> EventAt(Drop(net, 1), 0) == Event(false, Fine)
    ensures EventAt(Drop(net, PostAt(key)), 0) == Event(false, Later)
  {
    var rest := Drop(net, PostAt(key) + 1);
    forall i | 0 <= i < 10
      ensures EventAt(rest, i) == Event(false, Fine)
    {
      assert net[PostAt(key) + 1 + i] == Event(false, Fine);
    }
  }

  lemma LateWrote(w: World, camera: Camera, key: Key, vendor: VendorKey, value: Json, patch: Patch)
    requires w.late == [] && w.landed == [] && LateWrite(w.net, key)
    requires Asked(w.now, camera, key, vendor, value) == Ok(patch)
    ensures Answers(w) && Served(w).now == w.now
    ensures Wrote(Served(w), camera, key, vendor, value)
         == Reply(Ok(()), World(w.now, [patch], Drop(w.net, PostAt(key) + 1), []))
  {
    LateThenStill(w.net, key);
    DropAt(w.net, 1, 0);
    hide Asked, Apply, LateWrite, Still;
    var t := w.(net := Drop(w.net, 1));
    assert Served(w) == t;
    if IsThreshold(key) {
      ThresholdNeedsDefault(w.now, camera, key, vendor, value);
      DropAt(w.net, 2, 0);
      assert Served(t) == w.(net := Drop(w.net, 2));
    }
  }

  lemma LateStages(w: World, camera: Camera, key: Key, vendor: VendorKey, encoded: Json, was: Json, desired: Json,
                   change: Patch)
    requires w.late == [] && w.landed == [] && LateWrite(w.net, key)
    requires Asked(w.now, camera, key, vendor, encoded) == Ok(change) && vendor in w.now.config
    requires !Shown(w.now, camera, key, desired)
    requires Asked(w.now, camera, key, vendor, w.now.config[vendor]) != Ok(change)
    ensures var reply := WrittenAndVerified(Served(w), camera, key, vendor, w.now.config[vendor],
                                                  encoded, was, desired);
            reply.result.Err? && reply.world.late == [change] && !EndsWith(reply.world.landed, change)
  {
    hide Asked, Apply, Shown, Fields, Drop, Served, EventAt, Answered, Wrote, Verified, Undone, Still, LateWrite;
    LateWrote(w, camera, key, vendor, encoded, change);
    LateThenStill(w.net, key);
    var w1 := Wrote(Served(w), camera, key, vendor, encoded).world;
    StillVerified(w1, camera, key, desired, VERIFY_ATTEMPTS, 10);
    var w2 := Verified(w1, camera, key, desired, VERIFY_ATTEMPTS).world;
    StillUndone(w2, camera, key, vendor, w.now.config[vendor], was, change);
  }

  /**
   * For every change: if its write is confirmed but takes effect only after the call, the call reports a failure and
   * writes the old entry back, the listing is the old one, and later it is the changed one for good.
   */
  lemma LateWriteStrands(w: World, camera: Camera, key: Key, value: Json)
    requires w.late == [] && w.landed == [] && LateWrite(w.net, key) && Attempted(w.now, camera, key, value)
    ensures var reply := Updated(w, camera, key, value, Fields(w.now, camera));
            && reply.result.Err? && Fields(reply.world.now, camera) == Fields(w.now, camera)
            && Fields(Arrived(reply.world).now, camera) == Fields(Changed(w.now, camera, key, value).value, camera)
            && Fields(Arrived(reply.world).now, camera) != Fields(w.now, camera)
  {
    LateThenStill(w.net, key);
    AttemptedReaches(w.now, camera, key, value);
    var vendor, encoded, was, desired := ReachesWrite(w, camera, key, value);
    hide EndsEarly, Updated, Fields, FieldOf, Validated, Change, Apply, Asked, Shown, VendorKeyOf, Served, LateWrite,
      WrittenAndVerified, Arrived;
    ListingsDiffer(w.now, camera, key, value);
    BackIsNotChange(w.now, camera, key, value);
    LateStages(w, camera, key, vendor, encoded, was, desired, Change(w.now, camera, key, value).value);
    ListingIsOldOrNew(w, camera, key, value, Fields(w.now, camera));
  }

}
