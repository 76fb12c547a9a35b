/**
 * Setting by setting: how it is shown, which values it takes, and what is then sent to Blink. Each statement is about
 * every document and every value.
 */
module SettingsTable {
  import opened Wrappers
  import opened CameraSettings
  import Aliases = AliasStore

  /** An entry that reads as a switch that is off. */
  predicate Off(entry: Json) {
    entry == Bool(false) || entry == Integer(0)
  }

  /** An entry that reads as a switch that is on. */
  predicate On(entry: Json) {
    entry == Bool(true) || (entry.Integer? && entry.n != 0 && I64(entry.n))
  }

  /** A switch keeps the form it has in the document: a number stays a number. */
  function Like(entry: Json, on: bool): Json {
    if entry.Integer? then Integer(if on then 1 else 0) else Bool(on)
  }

  /** The switch `key` stands in the entry `vendor`, and can be set where `writable` says so. */
  predicate IsSwitch(r: Response, camera: Camera, key: Key, vendor: VendorKey, writable: bool, value: Json) {
    var entry := Get(r, vendor);
    && FieldOf(r, camera, key)
       == (if On(entry) || Off(entry)
           then Some(SettingField(key, Bool(On(entry)), Boolean, writable, None, None, None, [])) else None)
    && Change(r, camera, key, value)
       == (if !On(entry) && !Off(entry) then Err(Unsupported)
           else if !writable then Err(Unsupported)
           else if !value.Bool? then Err(Invalid)
           else Ok(Entry(vendor, Like(entry, value.b))))
  }

  lemma SwitchStandsThere(r: Response, camera: Camera, key: Key, vendor: VendorKey, writable: bool, value: Json)
    requires FieldOf(r, camera, key) == BoolField(r, key, vendor, writable) && VendorKeyOf(camera, key) == Some(vendor)
    requires key != IrIntensity && key != NightVision && !key.TemperatureAlerts?
    requires !key.TemperatureMin? && !key.TemperatureMax?
    ensures IsSwitch(r, camera, key, vendor, writable, value)
  {
    hide FieldOf, VendorKeyOf;
  }

  lemma Switches(r: Response, camera: Camera, value: Json)
    ensures var known := camera.kind != Other;
            && IsSwitch(r, camera, MotionDetection, Enabled, known, value)
            && IsSwitch(r, camera, VideoRecording, VideoRecordingEnable, known && !Off(Get(r, VideoRecordingOptional)),
                        value)
            && IsSwitch(r, camera, AudioStreaming, RecordAudioEnable, known && !Off(Get(r, RecordAudio)), value)
            && IsSwitch(r, camera, EndClipEarly, EarlyTermination, known && !Off(Get(r, EarlyTerminationSupported)),
                        value)
            && IsSwitch(r, camera, EarlyNotice, EarlyNotification, known && !Off(Get(r, EarlyNotificationCompatible)),
                        value)
  {
    hide IsSwitch, BoolField;
    var known := camera.kind != Other;
    SwitchStandsThere(r, camera, MotionDetection, Enabled, known, value);
    SwitchStandsThere(r, camera, VideoRecording, VideoRecordingEnable,
                      known && !Off(Get(r, VideoRecordingOptional)), value);
    SwitchStandsThere(r, camera, AudioStreaming, RecordAudioEnable, known && !Off(Get(r, RecordAudio)), value);
    SwitchStandsThere(r, camera, EndClipEarly, EarlyTermination,
                      known && !Off(Get(r, EarlyTerminationSupported)), value);
    SwitchStandsThere(r, camera, EarlyNotice, EarlyNotification,
                      known && !Off(Get(r, EarlyNotificationCompatible)), value);
  }

  /** Some switches exist for certain cameras only; the automatic thumbnail is never written. */
  lemma RareSwitches(r: Response, camera: Camera, value: Json)
    ensures if On(Get(r, FlipVideoCompatible)) then IsSwitch(r, camera, Flip, FlipVideo, camera.kind != Other, value)
            else FieldOf(r, camera, Flip).None? && Change(r, camera, Flip, value) == Err(Unsupported)
    ensures if camera.product == Catalina && On(Get(r, SnapshotCompatible))
            then IsSwitch(r, camera, PhotoCapture, SnapshotEnabled, camera.kind != Other, value)
            else FieldOf(r, camera, PhotoCapture).None? && Change(r, camera, PhotoCapture, value) == Err(Unsupported)
    ensures if camera.product != Owl
            then IsSwitch(r, camera, AutoThumbnail, AutoUpdateThumbnailEnabled, false, value)
            else FieldOf(r, camera, AutoThumbnail).None? && Change(r, camera, AutoThumbnail, value) == Err(Unsupported)
  {
    hide IsSwitch, BoolField, Validated, Encode, Asked;
    if On(Get(r, FlipVideoCompatible)) {
      SwitchStandsThere(r, camera, Flip, FlipVideo, camera.kind != Other, value);
    }
    if camera.product == Catalina && On(Get(r, SnapshotCompatible)) {
      SwitchStandsThere(r, camera, PhotoCapture, SnapshotEnabled, camera.kind != Other, value);
    }
    if camera.product != Owl {
      SwitchStandsThere(r, camera, AutoThumbnail, AutoUpdateThumbnailEnabled, false, value);
    }
  }

  /** The alert switch is shown like any other, set only on standard cameras and by a request of its own. */
  lemma AlertSwitch(r: Response, camera: Camera, value: Json)
    ensures var entry := Get(r, TempAlarmEnable);
            var known := On(entry) || Off(entry);
            && FieldOf(r, camera, TemperatureAlerts)
               == (if known then Some(SettingField(TemperatureAlerts, Bool(On(entry)), Boolean, camera.kind == Default,
                                                   None, None, None, [])) else None)
            && Change(r, camera, TemperatureAlerts, value)
               == (if !known || camera.kind != Default then Err(Unsupported)
                   else if !value.Bool? then Err(Invalid) else Ok(Alerts(value.b)))
  {
  }

  /** The alert request writes the switch in the form it has: a number stays a number. */
  lemma AlertToggled(r: Response, on: bool)
    ensures var before, after := Get(r, TempAlarmEnable), Get(Apply(r, Alerts(on)), TempAlarmEnable);
            after == if before.Integer? && I64(before.n) then Integer(if on then 1 else 0) else Bool(on)
    ensures forall vendor :: vendor != TempAlarmEnable ==> Get(Apply(r, Alerts(on)), vendor) == Get(r, vendor)
    ensures Apply(r, Alerts(on)).temp == r.temp
  {
  }

  /** The number `key` stands in the entry `vendor`, from `min` to `max` by `step`. */
  predicate IsNumber(r: Response, camera: Camera, key: Key, vendor: VendorKey, min: int, max: int, step: int,
                     value: Json)
    requires step > 0
  {
    var entry := IntegerValue(Get(r, vendor));
    var writable := camera.kind != Other;
    && FieldOf(r, camera, key)
       == (if entry.Some?
           then Some(SettingField(key, Integer(entry.value), Whole, writable, Some(min), Some(max), Some(step), []))
           else None)
    && Change(r, camera, key, value)
       == (if entry.None? || !writable then Err(Unsupported)
           else if value.Integer? && I64(value.n) && min <= value.n <= max && (value.n - min) % step == 0
           then Ok(Entry(vendor, value)) else Err(Invalid))
  }

  lemma NumberStandsThere(r: Response, camera: Camera, key: Key, vendor: VendorKey, min: int, max: int, step: int,
                          value: Json)
    requires step > 0 && VendorKeyOf(camera, key) == Some(vendor)
    requires FieldOf(r, camera, key) == IntegerField(r, key, vendor, min, max, step, camera.kind != Other)
    requires key != IrIntensity && key != NightVision && !key.TemperatureAlerts?
    requires !key.TemperatureMin? && !key.TemperatureMax?
    ensures IsNumber(r, camera, key, vendor, min, max, step, value)
  {
    hide FieldOf, VendorKeyOf, ParseI64;
  }

  lemma Numbers(r: Response, camera: Camera, value: Json)
    ensures IsNumber(r, camera, Sensitivity, MotionSensitivity, 1, 9, 1, value)
    ensures IsNumber(r, camera, Retrigger, if camera.kind == Mini then RetriggerTime else AlertInterval, 10, 60, 10,
                     value)
    ensures var longest := IntegerValue(Get(r, ClipLengthMax));
            IsNumber(r, camera, ClipSeconds, if camera.kind == Mini then ClipLength else VideoLength,
                     5, if longest.Some? then longest.value else 60, 5, value)
    ensures if camera.kind == Mini then IsNumber(r, camera, SpeakerVolume, VolumeControl, 1, 8, 1, value)
            else FieldOf(r, camera, SpeakerVolume).None? && Change(r, camera, SpeakerVolume, value) == Err(Unsupported)
  {
    hide IsNumber, IntegerField, IntegerValue, Validated, Encode, Asked;
    var longest := IntegerValue(Get(r, ClipLengthMax));
    NumberStandsThere(r, camera, Sensitivity, MotionSensitivity, 1, 9, 1, value);
    NumberStandsThere(r, camera, Retrigger, if camera.kind == Mini then RetriggerTime else AlertInterval, 10, 60, 10,
                      value);
    NumberStandsThere(r, camera, ClipSeconds, if camera.kind == Mini then ClipLength else VideoLength,
                      5, if longest.Some? then longest.value else 60, 5, value);
    if camera.kind == Mini {
      NumberStandsThere(r, camera, SpeakerVolume, VolumeControl, 1, 8, 1, value);
    }
  }

  /** The strength of the link to the sync module is shown and never written. */
  lemma LinkStrength(r: Response, camera: Camera, value: Json)
    ensures var entry := IntegerValue(Get(r, LfrStrength));
            FieldOf(r, camera, SyncStrength)
            == if entry.Some?
               then Some(SettingField(SyncStrength, Integer(entry.value), Whole, false, Some(-100), Some(0), Some(1),
                                      []))
               else None
    ensures Change(r, camera, SyncStrength, value) == Err(Unsupported)
  {
  }

  /** The choice `key` shows `current`, one of `options`. */
  predicate IsChoice(r: Response, camera: Camera, key: Key, current: Option<string>, options: seq<string>) {
    FieldOf(r, camera, key)
    == if current.Some? && current.value in options
       then Some(SettingField(key, Text(current.value), Select, camera.kind != Other, None, None, None, options))
       else None
  }

  function TextOf(entry: Json): Option<string> {
    if entry.Text? then Some(entry.s) else None
  }

  lemma NightVisionChoice(r: Response, camera: Camera, value: Json)
    ensures var entry := Get(r, IlluminatorEnable);
            var current := match IntegerValue(entry)
                           case Some(0) => Some("off") case Some(1) => Some("on") case Some(2) => Some("auto")
                           case _ => TextOf(entry);
            var options := ["off", "on", "auto"];
            && IsChoice(r, camera, NightVision, current, options)
            && (Change(r, camera, NightVision, value).Ok? <==>
                  && camera.kind != Other && current.Some? && current.value in options
                  && value.Text? && value.s in options)
            && (Change(r, camera, NightVision, value).Ok? ==>
                  Change(r, camera, NightVision, value)
                  == Ok(Entry(IlluminatorEnable,
                              if entry.Text? then value
                              else Integer(if value.s == "off" then 0 else if value.s == "on" then 1 else 2))))
  {
  }

  lemma InfraredChoice(r: Response, camera: Camera, value: Json)
    ensures var current := match IntegerValue(Get(r, IlluminatorIntensity))
                           case Some(1) => Some("low") case Some(4) => Some("medium") case Some(7) => Some("high")
                           case _ => None;
            var options := ["low", "medium", "high"];
            && IsChoice(r, camera, IrIntensity, current, options)
            && (Change(r, camera, IrIntensity, value).Ok? <==>
                  camera.kind != Other && current.Some? && value.Text? && value.s in options)
            && (Change(r, camera, IrIntensity, value).Ok? ==>
                  Change(r, camera, IrIntensity, value)
                  == Ok(Entry(IlluminatorIntensity,
                              Integer(if value.s == "low" then 1 else if value.s == "medium" then 4 else 7))))
  {
  }

  lemma LedChoice(r: Response, camera: Camera, value: Json)
    ensures var options := if camera.kind == Mini then ["on", "off", "recording"] else ["off", "recording"];
            var current := TextOf(Get(r, LedState));
            && IsChoice(r, camera, StatusLed, current, options)
            && Change(r, camera, StatusLed, value)
               == (if current.None? || current.value !in options || camera.kind == Other then Err(Unsupported)
                   else if value.Text? && value.s in options then Ok(Entry(LedState, value)) else Err(Invalid))
  {
  }

  /** The qualities the camera supports, or the usual three, and the present one in any case. */
  lemma QualityChoice(r: Response, camera: Camera, value: Json)
    ensures var support, current := Get(r, VideoQualitySupport), TextOf(Get(r, VideoQuality));
            current.Some? ==>
              var usual := if support.List? then Strings(support.items) else ["saver", "standard", "best"];
              var options := if current.value in usual then usual else usual + [current.value];
              && IsChoice(r, camera, Quality, current, options)
              && Change(r, camera, Quality, value)
                 == (if camera.kind == Other then Err(Unsupported)
                     else if value.Text? && value.s in options then Ok(Entry(VideoQuality, value)) else Err(Invalid))
    ensures !Get(r, VideoQuality).Text? ==>
              FieldOf(r, camera, Quality).None? && Change(r, camera, Quality, value) == Err(Unsupported)
  {
    hide QualityOptions, Strings;
    QualityIsOffered(r, camera);
    var current := TextOf(Get(r, VideoQuality));
    if current.Some? {
      UsualOptions(r, current.value);
      QualityTaken(r, camera, current.value, QualityOptions(r, current.value), value);
    }
  }

  lemma UsualOptions(r: Response, current: string)
    ensures var support := Get(r, VideoQualitySupport);
            var usual := if support.List? then Strings(support.items) else ["saver", "standard", "best"];
            QualityOptions(r, current) == (if current in usual then usual else usual + [current])
    ensures current in QualityOptions(r, current)
  {
    hide Strings;
  }

  lemma QualityIsOffered(r: Response, camera: Camera)
    ensures var current := TextOf(Get(r, VideoQuality));
            FieldOf(r, camera, Quality)
            == if current.None? then None
               else SelectField(Quality, current.value, QualityOptions(r, current.value), camera.kind != Other)
  {
    hide QualityOptions, SelectField;
  }

  lemma QualityTaken(r: Response, camera: Camera, current: string, options: seq<string>, value: Json)
    requires Get(r, VideoQuality) == Text(current) && current in options
    requires FieldOf(r, camera, Quality) == SelectField(Quality, current, options, camera.kind != Other)
    ensures IsChoice(r, camera, Quality, Some(current), options)
    ensures Change(r, camera, Quality, value)
         == (if camera.kind == Other then Err(Unsupported)
             else if value.Text? && value.s in options then Ok(Entry(VideoQuality, value)) else Err(Invalid))
  {
    hide FieldOf;
  }

  lemma {:induction false} StringsAreTexts(items: seq<Json>, s: string)
    ensures s in Strings(items) <==> Text(s) in items
    decreases |items|
  {
    if items != [] {
      StringsAreTexts(items[1..], s);
      assert Text(s) in items <==> items[0] == Text(s) || Text(s) in items[1..];
    }
  }

  /** A name is 1 to 255 characters after trimming, with no control character among them. */
  lemma NameField(r: Response, camera: Camera, value: Json)
    ensures var entry := Get(r, Name);
            && FieldOf(r, camera, CameraName)
               == (if entry.Text?
                   then Some(SettingField(CameraName, entry, Words, camera.kind != Other, None, Some(255), None, []))
                   else None)
            && Change(r, camera, CameraName, value)
               == (if !entry.Text? || camera.kind == Other then Err(Unsupported)
                   else if value.Text? && 1 <= |Trim(value.s)| <= 255
                           && forall c :: c in Trim(value.s) ==> 0x20 <= c as int < 0x7f || c as int > 0x9f
                   then Ok(Entry(Name, Text(Trim(value.s)))) else Err(Invalid))
  {
    hide Trim;
  }

  /** Thresholds: limits by product, shown as null while only the alert switch is known, written only with a reading. */
  lemma ThresholdFields(r: Response, camera: Camera, key: Key)
    requires key.TemperatureMin? || key.TemperatureMax?
    ensures var entry := IntegerValue(Get(r, if key.TemperatureMin? then TempMin else TempMax));
            var low, high := if camera.product == CatalinaIndoor then 32 else -4,
                             if camera.product == CatalinaIndoor then 95 else 113;
            var writable := camera.kind == Default && r.temp.Some?;
            FieldOf(r, camera, key)
            == if entry.Some?
               then Some(SettingField(key, Integer(entry.value), Whole, writable, Some(low), Some(high), Some(1), []))
               else if camera.kind == Default && TempAlarmEnable in r.config
               then Some(SettingField(key, Null, Whole, writable, Some(low), Some(high), Some(1), []))
               else None
  {
  }

  /** A threshold is taken iff it is a whole number within the limits and the two stay at least 10 degrees apart. */
  lemma ThresholdTakenIff(r: Response, camera: Camera, key: Key, value: Json)
    requires key.TemperatureMin? || key.TemperatureMax?
    ensures var low, high := IntegerValue(Get(r, TempMin)), IntegerValue(Get(r, TempMax));
            var least, most := if camera.product == CatalinaIndoor then 32 else -4,
                               if camera.product == CatalinaIndoor then 95 else 113;
            (Change(r, camera, key, value).Ok? <==>
               && camera.kind == Default && r.temp.Some? && low.Some? && high.Some?
               && value.Integer? && least <= value.n <= most
               && var gap := if key.TemperatureMin? then high.value - value.n else value.n - low.value;
                  10 <= gap <= 0x7fff_ffff_ffff_ffff)
    ensures Change(r, camera, key, value).Ok? ==>
              var low, high := IntegerValue(Get(r, TempMin)).value, IntegerValue(Get(r, TempMax)).value;
              Change(r, camera, key, value)
              == Ok(Thresholds(if key.TemperatureMin? then Body(value.n, high, r.temp.value)
                               else Body(low, value.n, r.temp.value)))
  {
    hide ThresholdBody, ParseI64;
    ThresholdRequest(r, key, value);
    ThresholdFields(r, camera, key);
  }

  // ---------- values as they stand in a document

  /** Which numbers are read: whole ones of 64 bits, as integers or as floats. */
  lemma NumbersRead(n: int)
    ensures var fits := -9_223_372_036_854_775_808 <= n <= 9_223_372_036_854_775_807;
            IntegerValue(Integer(n)) == IntegerValue(Float(Some(n))) == if fits then Some(n) else None
    ensures IntegerValue(Float(None)) == IntegerValue(Null) == IntegerValue(Bool(true)) == IntegerValue(Object) == None
  {
  }

  lemma {:induction false} DigitsOfDecimal(n: nat)
    ensures Digits(Aliases.Decimal(n)) == Some(n) && Aliases.Decimal(n) != []
    ensures '0' <= Aliases.Decimal(n)[0] <= '9'
    decreases n
  {
    var s := Aliases.Decimal(n);
    if n >= 10 {
      DigitsOfDecimal(n / 10);
      assert s[..|s| - 1] == Aliases.Decimal(n / 10);
    } else {
      assert s[..0] == [];
    }
  }

  /** Numbers are read from text as well: their decimals, with or without a sign, as far as they fit 64 bits. */
  lemma TextsRead(n: int)
    requires n >= 0
    ensures var decimal := Aliases.Decimal(n);
            && IntegerValue(Text(decimal)) == IntegerValue(Text("+" + decimal))
               == (if n <= 9_223_372_036_854_775_807 then Some(n) else None)
            && IntegerValue(Text("-" + decimal)) == (if n <= 9_223_372_036_854_775_808 then Some(-n) else None)
  {
    hide Digits;
    var decimal := Aliases.Decimal(n);
    DigitsOfDecimal(n);
    assert ("+" + decimal)[1..] == decimal && ("-" + decimal)[1..] == decimal;
  }

  /** And nothing else is: a text that reads as a number holds digits only, after a sign at most. */
  lemma OnlyDigitsRead(s: string)
    requires IntegerValue(Text(s)).Some?
    ensures var digits := if s[0] == '-' || s[0] == '+' then s[1..] else s;
            digits != [] && forall c :: c in digits ==> '0' <= c <= '9'
  {
    var digits := if s != [] && (s[0] == '-' || s[0] == '+') then s[1..] else s;
    DigitsAreDigits(digits);
    hide Digits;
  }

  lemma {:induction false} DigitsAreDigits(s: string)
    ensures Digits(s).Some? ==> forall c :: c in s ==> '0' <= c <= '9'
    decreases |s|
  {
    if s != [] {
      DigitsAreDigits(s[..|s| - 1]);
      assert s == s[..|s| - 1] + [s[|s| - 1]];
    }
  }

  /** Trimming takes white space off both ends and nothing else. */
  lemma {:induction false} Trimmed(s: string) returns (i: nat, j: nat)
    ensures i <= j <= |s| && Trim(s) == s[i..j]
    ensures forall k :: 0 <= k < |s| && !(i <= k < j) ==> Space(s[k])
    ensures Trim(s) != [] ==> !Space(Trim(s)[0]) && !Space(Trim(s)[|Trim(s)| - 1])
    decreases |s|
  {
    hide Space;
    if s == [] {
      i, j := 0, 0;
    } else if Space(s[0]) {
      i, j := Trimmed(s[1..]);
      i, j := i + 1, j + 1;
      assert s[1..][i - 1..j - 1] == s[i..j];
      assert forall k :: 0 < k < |s| ==> s[k] == s[1..][k - 1];
    } else if Space(s[|s| - 1]) {
      i, j := Trimmed(s[..|s| - 1]);
      assert s[..|s| - 1][i..j] == s[i..j];
    } else {
      i, j := 0, |s|;
    }
  }

  /** White space is that of Unicode. */
  lemma SpaceIff(c: char)
    ensures Space(c) <==>
              c as int in {0x09, 0x0a, 0x0b, 0x0c, 0x0d, 0x20, 0x85, 0xa0, 0x1680, 0x2000, 0x2001, 0x2002, 0x2003,
                           0x2004, 0x2005, 0x2006, 0x2007, 0x2008, 0x2009, 0x200a, 0x2028, 0x2029, 0x202f, 0x205f,
                           0x3000}
  {
  }
}
