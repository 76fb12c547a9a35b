/**
 * Listing a camera's settings in the order the API shows them, and changing one of them with read-back and, when
 * the change does not show, a write of the old value, over a network on which any request may fail, lose its answer
 * or take effect late.
 */
module SettingsClient {
  import opened Wrappers
  import opened CameraSettings

  const ORDER: seq<Key> :=
    [MotionDetection, VideoRecording, AudioStreaming, ClipSeconds, Quality, EndClipEarly, NightVision,
     Sensitivity, Retrigger, EarlyNotice,
     CameraName, Flip, IrIntensity, StatusLed, PhotoCapture, AutoThumbnail, SpeakerVolume, SyncStrength,
     TemperatureAlerts, TemperatureMin, TemperatureMax]

  function Place(key: Key): (place: nat)
    ensures place < |ORDER| && ORDER[place] == key
  {
    match key
    case MotionDetection => 0
    case VideoRecording => 1
    case AudioStreaming => 2
    case ClipSeconds => 3
    case Quality => 4
    case EndClipEarly => 5
    case NightVision => 6
    case Sensitivity => 7
    case Retrigger => 8
    case EarlyNotice => 9
    case CameraName => 10
    case Flip => 11
    case IrIntensity => 12
    case StatusLed => 13
    case PhotoCapture => 14
    case AutoThumbnail => 15
    case SpeakerVolume => 16
    case SyncStrength => 17
    case TemperatureAlerts => 18
    case TemperatureMin => 19
    case TemperatureMax => 20
  }

  lemma PlaceOfOrder(i: nat)
    requires i < |ORDER|
    ensures Place(ORDER[i]) == i
  {
  }

  /** The fields that exist, in the order of the keys. */
  function FieldsOf(r: Response, camera: Camera, keys: seq<Key>): seq<SettingField> {
    if keys == [] then []
    else
      var last := FieldOf(r, camera, keys[|keys| - 1]);
      FieldsOf(r, camera, keys[..|keys| - 1]) + if last.Some? then [last.value] else []
  }

  function Fields(r: Response, camera: Camera): seq<SettingField> {
    FieldsOf(r, camera, ORDER)
  }

  lemma {:induction false} FieldsByKey(r: Response, camera: Camera, keys: seq<Key>)
    ensures forall f :: f in FieldsOf(r, camera, keys) <==> f.key in keys && FieldOf(r, camera, f.key) == Some(f)
    decreases |keys|
  {
    if keys != [] {
      var n := |keys| - 1;
      FieldsByKey(r, camera, keys[..n]);
      if FieldOf(r, camera, keys[n]).Some? {
        KindOfKey(r, camera, keys[n]);
      }
      hide FieldOf;
      assert keys == keys[..n] + [keys[n]];
    }
  }

  ghost predicate OnePerKey(fields: seq<SettingField>) {
    forall i, j :: 0 <= i < j < |fields| ==> fields[i].key != fields[j].key
  }

  lemma {:induction false} FieldsOnce(r: Response, camera: Camera, keys: seq<Key>)
    requires forall i, j :: 0 <= i < j < |keys| ==> keys[i] != keys[j]
    ensures OnePerKey(FieldsOf(r, camera, keys))
    decreases |keys|
  {
    if keys != [] {
      var n := |keys| - 1;
      FieldsOnce(r, camera, keys[..n]);
      FieldsByKey(r, camera, keys[..n]);
      if FieldOf(r, camera, keys[n]).Some? {
        KindOfKey(r, camera, keys[n]);
      }
      hide FieldOf;
    }
  }

  /** A listing shows each field that exists once, and nothing else. */
  lemma ListingIsComplete(r: Response, camera: Camera)
    ensures forall f :: f in Fields(r, camera) <==> FieldOf(r, camera, f.key) == Some(f)
    ensures OnePerKey(Fields(r, camera))
  {
    forall i, j | 0 <= i < j < |ORDER|
      ensures ORDER[i] != ORDER[j]
    {
      PlaceOfOrder(i);
      PlaceOfOrder(j);
    }
    assert forall key: Key :: key in ORDER by {
      forall key: Key
        ensures key in ORDER
      {
        assert ORDER[Place(key)] == key;
      }
    }
    hide *;
    assert Fields(r, camera) == FieldsOf(r, camera, ORDER) by { ListingIsFields(r, camera); }
    FieldsByKey(r, camera, ORDER);
    FieldsOnce(r, camera, ORDER);
  }

  lemma ListingIsFields(r: Response, camera: Camera)
    ensures Fields(r, camera) == FieldsOf(r, camera, ORDER)
  {
  }

  lemma {:induction false} SameFieldsSameListing(r: Response, s: Response, camera: Camera, keys: seq<Key>)
    requires forall key :: key in keys ==> FieldOf(r, camera, key) == FieldOf(s, camera, key)
    ensures FieldsOf(r, camera, keys) == FieldsOf(s, camera, keys)
    decreases |keys|
  {
    hide FieldOf;
    if keys != [] {
      SameFieldsSameListing(r, s, camera, keys[..|keys| - 1]);
    }
  }

  /** The list is built field by field, in the order of the keys. */
  method CameraSettingsOf(response: Response, camera: Camera) returns (fields: seq<SettingField>)
    ensures fields == Fields(response, camera)
  {
    hide FieldOf;
    fields := [];
    for i := 0 to |ORDER|
      invariant fields == FieldsOf(response, camera, ORDER[..i])
    {
      var field := FieldOf(response, camera, ORDER[i]);
      assert ORDER[..i + 1][..i] == ORDER[..i];
      if field.Some? {
        fields := fields + [field.value];
      }
    }
    assert ORDER[..|ORDER|] == ORDER;
  }

  // ---------- the provider and the way to it

  /**
   * What becomes of one request; a write may take effect without an answer, and late or not at all with one. A request
   * that fails ends the call, so a call dropped while it waits for one leaves the same world.
   */
  datatype Outcome = Fine | Failing | Ignored | Later | Unconfirmed | LaterUnconfirmed

  /** Before a request is served the late writes may arrive. */
  datatype Event = Event(arrive: bool, outcome: Outcome)

  /** The document, the writes on their way, the events to come and the writes that took effect. */
  datatype World = World(now: Response, late: seq<Patch>, net: seq<Event>, landed: seq<Patch>)

  /** What a call returns, and the world it leaves. */
  datatype Reply<T> = Reply(result: Result<T, SettingError>, world: World)

  predicate Answered(outcome: Outcome) {
    outcome.Fine? || outcome.Ignored? || outcome.Later?
  }

  function EventAt(net: seq<Event>, i: nat): Event {
    if i < |net| then net[i] else Event(true, Fine)
  }

  function ApplyAll(r: Response, patches: seq<Patch>): Response {
    if patches == [] then r else Apply(ApplyAll(r, patches[..|patches| - 1]), patches[|patches| - 1])
  }

  function Arrived(w: World): World {
    w.(now := ApplyAll(w.now, w.late), late := [], landed := w.landed + w.late)
  }

  function Served(w: World): World {
    var t := if EventAt(w.net, 0).arrive then Arrived(w) else w;
    t.(net := if w.net == [] then [] else w.net[1..])
  }

  function Sent(w: World, patch: Patch): World {
    var t := Served(w);
    match EventAt(w.net, 0).outcome
    case Fine => t.(now := Apply(t.now, patch), landed := t.landed + [patch])
    case Unconfirmed => t.(now := Apply(t.now, patch), landed := t.landed + [patch])
    case Later => t.(late := t.late + [patch])
    case LaterUnconfirmed => t.(late := t.late + [patch])
    case _ => t
  }

  predicate Answers(w: World) {
    Answered(EventAt(w.net, 0).outcome)
  }

  predicate IsThreshold(key: Key) {
    key.TemperatureMin? || key.TemperatureMax?
  }

  function SentAnswered(w: World, patch: Patch): Reply<()> {
    Reply(if Answers(w) then Ok(()) else Err(Network), Sent(w, patch))
  }

  /** A threshold is completed from a document read just before. */
  function WroteThreshold(w: World, camera: Camera, key: Key, vendor: VendorKey, value: Json)
    : Reply<()>
  {
    if camera.kind != Default then Reply(Err(Unsupported), w)
    else if !Answers(w) then Reply(Err(Network), Served(w))
    else
      var asked := Asked(Served(w).now, camera, key, vendor, value);
      if asked.Err? then Reply(Err(asked.error), Served(w)) else SentAnswered(Served(w), asked.value)
  }

  function Wrote(w: World, camera: Camera, key: Key, vendor: VendorKey, value: Json): Reply<()> {
    if IsThreshold(key) then WroteThreshold(w, camera, key, vendor, value)
    else
      var asked := Asked(w.now, camera, key, vendor, value); // does not depend on the document
      if asked.Err? then Reply(Err(asked.error), w) else SentAnswered(w, asked.value)
  }

  predicate Shown(r: Response, camera: Camera, key: Key, expected: Json) {
    exists f :: f in Fields(r, camera) && f.key == key && f.value == expected
  }

  const VERIFY_ATTEMPTS: nat := 4

  /** Reads until the value shows, at most `attempts` times. */
  function Verified(w: World, camera: Camera, key: Key, expected: Json, attempts: nat)
    : Reply<Option<seq<SettingField>>>
    decreases attempts
  {
    if attempts == 0 then Reply(Ok(None), w)
    else if !Answers(w) then Reply(Err(Network), Served(w))
    else
      var t := Served(w);
      if Shown(t.now, camera, key, expected) then Reply(Ok(Some(Fields(t.now, camera))), t)
      else Verified(t, camera, key, expected, attempts - 1)
  }

  /** The old entry is written back and read; the call fails in any case. */
  function Undone(w: World, camera: Camera, key: Key, vendor: VendorKey, current: Json, was: Json)
    : (r: Reply<seq<SettingField>>)
    ensures r.result.Err?
  {
    var back := Wrote(w, camera, key, vendor, current);
    if back.result.Err? then Reply(Err(back.result.error), back.world)
    else
      var restored := Verified(back.world, camera, key, was, VERIFY_ATTEMPTS);
      Reply(Err(if restored.result.Err? then restored.result.error else Verification), restored.world)
  }

  /** Write, read back, refresh; or write the old entry back. `t` is the world after the first read. */
  function WrittenAndVerified(t: World, camera: Camera, key: Key, vendor: VendorKey, current: Json, encoded: Json,
                              was: Json, desired: Json): Reply<seq<SettingField>>
  {
    var wrote := Wrote(t, camera, key, vendor, encoded);
    if wrote.result.Err? then Reply(Err(wrote.result.error), wrote.world)
    else
      var read := Verified(wrote.world, camera, key, desired, VERIFY_ATTEMPTS);
      if read.result.Err? then Reply(Err(read.result.error), read.world)
      else if read.result.value.Some?
      then Reply(if Answers(read.world) then Ok(read.result.value.value) else Err(Network), Served(read.world))
      else Undone(read.world, camera, key, vendor, current, was)
  }

  /** One call. The revision a caller names is a digest of the listing, taken to be injective. */
  function Updated(w: World, camera: Camera, key: Key, value: Json, revision: seq<SettingField>)
    : Reply<seq<SettingField>>
  {
    var t := Served(w);
    if !Answers(w) then Reply(Err(Network), t)
    else if Fields(t.now, camera) != revision then Reply(Err(Conflict), t)
    else
      var field := FieldOf(t.now, camera, key);
      if field.None? then Reply(Err(Unsupported), t)
      else
        var desired := Validated(field.value, value);
        if desired.Err? then Reply(Err(desired.error), t)
        else if desired.value == field.value.value then Reply(Ok(revision), t)
        else
          var vendor := VendorKeyOf(camera, key);
          if vendor.None? || vendor.value !in t.now.config then Reply(Err(Unsupported), t)
          else
            var current := t.now.config[vendor.value];
            var encoded := Encode(key, current, desired.value);
            if encoded.Err? then Reply(Err(encoded.error), t)
            else WrittenAndVerified(t, camera, key, vendor.value, current, encoded.value,
                                    field.value.value, desired.value)
  }

  lemma PlainAsked(r: Response, camera: Camera, key: Key, vendor: VendorKey, value: Json)
    requires !IsThreshold(key)
    ensures var on := BoolValue(value);
            Asked(r, camera, key, vendor, value)
            == if key.TemperatureAlerts? then if on.None? then Err(Invalid) else Ok(Alerts(on.value))
               else Ok(Entry(vendor, value))
  {
  }

  // ---------- the client

  class Client {
    const camera: Camera
    var world: World

    constructor (camera: Camera, world: World)
      ensures this.camera == camera && this.world == world
    {
      this.camera, this.world := camera, world;
    }

    method Get() returns (response: Option<Response>)
      modifies this
      ensures world == Served(old(world)) && (response.Some? <==> Answers(old(world)))
      ensures response.Some? ==> response.value == world.now
    {
      var answered := Answers(world);
      world := Served(world);
      response := if answered then Some(world.now) else None;
    }

    method Post(patch: Patch) returns (ok: bool)
      modifies this
      ensures world == Sent(old(world), patch) && (ok <==> Answers(old(world)))
    {
      ok := Answers(world);
      world := Sent(world, patch);
    }

    method WriteTemperatureThreshold(key: Key, vendor: VendorKey, value: Json) returns (r: Result<(), SettingError>)
      requires IsThreshold(key)
      modifies this
      ensures var reply := WroteThreshold(old(world), camera, key, vendor, value);
              r == reply.result && world == reply.world
      ensures r.Ok? ==>
                var now := Served(old(world)).now;
                var low, high := IntegerValue(CameraSettings.Get(now, TempMin)),
                                 IntegerValue(CameraSettings.Get(now, TempMax));
                && camera.kind == Default && low.Some? && high.Some? && now.temp.Some? && AsI64(value).Some?
                && var body := if key.TemperatureMin? then Body(AsI64(value).value, high.value, now.temp.value)
                               else Body(low.value, AsI64(value).value, now.temp.value);
                   world == Sent(Served(old(world)), Thresholds(body))
    {
      hide Served, Sent, Answers, ThresholdBody, IntegerValue, AsI64, CameraSettings.Get;
      if camera.kind != Default {
        return Err(Unsupported);
      }
      var response := Get();
      if response.None? {
        return Err(Network);
      }
      var body := ThresholdBody(response.value, key, value);
      ThresholdRequest(response.value, key, value);
      if body.Err? {
        return Err(body.error);
      }
      var ok := Post(Thresholds(body.value));
      r := if ok then Ok(()) else Err(Network);
    }

    method WriteSetting(key: Key, vendor: VendorKey, value: Json) returns (r: Result<(), SettingError>)
      modifies this
      ensures var reply := Wrote(old(world), camera, key, vendor, value);
              r == reply.result && world == reply.world
    {
      hide Served, Sent, Answers, ThresholdBody, WroteThreshold, BoolValue;
      if IsThreshold(key) {
        r := WriteTemperatureThreshold(key, vendor, value);
        return;
      }
      PlainAsked(world.now, camera, key, vendor, value);
      hide Asked, IsThreshold;
      var enabled := if key.TemperatureAlerts? then BoolValue(value) else None;
      if key.TemperatureAlerts? && enabled.None? {
        return Err(Invalid);
      }
      var ok := Post(if key.TemperatureAlerts? then Alerts(enabled.value) else Entry(vendor, value));
      r := if ok then Ok(()) else Err(Network);
    }

    /** Up to four reads; the settings at the first that shows the value. */
    method VerifySetting(key: Key, expected: Json) returns (r: Result<Option<seq<SettingField>>, SettingError>)
      modifies this
      ensures var reply := Verified(old(world), camera, key, expected, VERIFY_ATTEMPTS);
              r == reply.result && world == reply.world
    {
      hide Served, Fields, Answers;
      for attempt := 0 to VERIFY_ATTEMPTS
        invariant Verified(old(world), camera, key, expected, VERIFY_ATTEMPTS)
               == Verified(world, camera, key, expected, VERIFY_ATTEMPTS - attempt)
      {
        var response := Get();
        if response.None? {
          return Err(Network);
        }
        var fields := CameraSettingsOf(response.value, camera);
        if exists f :: f in fields && f.key == key && f.value == expected {
          return Ok(Some(fields));
        }
      }
      r := Ok(None);
    }

    /** The change does not show: the old entry is written and read again, and the failure is reported. */
    method WriteBack(key: Key, vendor: VendorKey, current: Json, was: Json)
      returns (r: Result<seq<SettingField>, SettingError>)
      modifies this
      ensures var reply := Undone(old(world), camera, key, vendor, current, was);
              r == reply.result && world == reply.world
    {
      hide Wrote, Verified;
      var back := WriteSetting(key, vendor, current);
      if back.Err? {
        return Err(back.error);
      }
      var restored := VerifySetting(key, was);
      r := Err(if restored.Err? then restored.error else Verification);
    }

    method WriteAndVerify(key: Key, vendor: VendorKey, current: Json, encoded: Json, was: Json, desired: Json)
      returns (r: Result<seq<SettingField>, SettingError>)
      modifies this
      ensures var reply := WrittenAndVerified(old(world), camera, key, vendor, current, encoded, was, desired);
              r == reply.result && world == reply.world
    {
      hide Served, Wrote, Verified, Answers, Undone;
      var wrote := WriteSetting(key, vendor, encoded);
      if wrote.Err? {
        return Err(wrote.error);
      }
      var shown := VerifySetting(key, desired);
      if shown.Err? {
        return Err(shown.error);
      }
      if shown.value.Some? {
        var refreshed := Get();
        return if refreshed.Some? then Ok(shown.value.value) else Err(Network);
      }
      r := WriteBack(key, vendor, current, was);
    }

    method UpdateCameraSetting(key: Key, value: Json, revision: seq<SettingField>)
      returns (r: Result<seq<SettingField>, SettingError>)
      modifies this
      ensures var reply := Updated(old(world), camera, key, value, revision);
              r == reply.result && world == reply.world
    {
      hide Served, Fields, FieldOf, Validated, Encode, WrittenAndVerified, Answers;
      var response := Get();
      if response.None? {
        return Err(Network);
      }
      var fields := CameraSettingsOf(response.value, camera);
      if fields != revision {
        return Err(Conflict);
      }
      var field := FieldOf(response.value, camera, key);
      if field.None? {
        return Err(Unsupported);
      }
      var desired := Validated(field.value, value);
      if desired.Err? {
        return Err(desired.error);
      }
      if desired.value == field.value.value {
        return Ok(fields);
      }
      var vendor := VendorKeyOf(camera, key);
      if vendor.None? || vendor.value !in response.value.config {
        return Err(Unsupported);
      }
      var current := response.value.config[vendor.value];
      var encoded := Encode(key, current, desired.value);
      if encoded.Err? {
        return Err(encoded.error);
      }
      r := WriteAndVerify(key, vendor.value, current, encoded.value, field.value.value, desired.value);
    }
  }
}
