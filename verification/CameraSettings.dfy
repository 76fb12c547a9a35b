/**
 * The settings of one camera: how they are read out of Blink's configuration document, checked, encoded back into
 * Blink's own types and written.
 */
module CameraSettings {
  import opened Wrappers

  /** A JSON value; of a float only whether, and which, integer it is. */
  datatype Json =
    | Null | Bool(b: bool) | Integer(n: int) | Float(whole: Option<int>) | Text(s: string) | List(items: seq<Json>)
    | Object

  datatype VendorKey =
    | Enabled | VideoRecordingEnable | VideoRecordingOptional | RecordAudioEnable | RecordAudio
    | ClipLength | VideoLength | ClipLengthMax | VideoQuality | VideoQualitySupport
    | EarlyTermination | EarlyTerminationSupported | IlluminatorEnable | IlluminatorIntensity
    | MotionSensitivity | RetriggerTime | AlertInterval | EarlyNotification | EarlyNotificationCompatible
    | Name | FlipVideo | FlipVideoCompatible | LedState | SnapshotEnabled | SnapshotCompatible
    | AutoUpdateThumbnailEnabled | VolumeControl | LfrStrength | TempAlarmEnable | TempMin | TempMax

  datatype Key =
    | MotionDetection | VideoRecording | AudioStreaming | ClipSeconds | Quality | EndClipEarly | NightVision
    | Sensitivity | Retrigger | EarlyNotice
    | CameraName | Flip | IrIntensity | StatusLed | PhotoCapture | AutoThumbnail | SpeakerVolume | SyncStrength
    | TemperatureAlerts | TemperatureMin | TemperatureMax

  datatype CameraType = Default | Mini | Other
  datatype Product = Catalina | CatalinaIndoor | Owl | AnyProduct
  datatype Camera = Camera(kind: CameraType, product: Product)

  /** The configuration object, and the measured temperature beside it. */
  datatype Response = Response(config: map<VendorKey, Json>, temp: Option<int>)

  datatype SettingKind = Boolean | Whole | Select | Words

  datatype SettingField = SettingField(
    key: Key, value: Json, kind: SettingKind, writable: bool,
    min: Option<int>, max: Option<int>, step: Option<int>, options: seq<string>)

  datatype SettingError = Invalid | Unsupported | Conflict | Verification | Network

  // ---------- reading values

  predicate I64(n: int) {
    -0x8000_0000_0000_0000 <= n < 0x8000_0000_0000_0000
  }

  function AsI64(j: Json): Option<int> {
    if j.Integer? && I64(j.n) then Some(j.n) else None
  }

  function Digits(s: string): Option<nat> {
    if s == [] then Some(0)
    else
      var last := s[|s| - 1];
      var before := Digits(s[..|s| - 1]);
      if before.Some? && '0' <= last <= '9' then Some(10 * before.value + (last as int - '0' as int)) else None
  }

  /** A decimal with an optional sign that fits 64 bits. */
  function ParseI64(s: string): Option<int> {
    var digits := if s != [] && (s[0] == '-' || s[0] == '+') then s[1..] else s;
    if digits == [] || Digits(digits).None? then None
    else
      var size: int := Digits(digits).value;
      var n := if s[0] == '-' then -size else size;
      if I64(n) then Some(n) else None
  }

  function IntegerValue(j: Json): Option<int> {
    match j
    case Integer(n) => if I64(n) then Some(n) else None
    case Float(whole) => if whole.Some? && I64(whole.value) then whole else None
    case Text(s) => ParseI64(s)
    case _ => None
  }

  function BoolValue(j: Json): Option<bool> {
    match j
    case Bool(b) => Some(b)
    case Integer(n) => if I64(n) then Some(n != 0) else None
    case _ => None
  }

  function Get(r: Response, vendor: VendorKey): Json {
    if vendor in r.config then r.config[vendor] else Null
  }

  // ---------- the fields of a document

  function NewField(key: Key, value: Json, kind: SettingKind, writable: bool): SettingField {
    SettingField(key, value, kind, writable, None, None, None, [])
  }

  function BoolField(r: Response, key: Key, vendor: VendorKey, writable: bool): Option<SettingField> {
    var value := BoolValue(Get(r, vendor));
    if value.Some? then Some(NewField(key, Bool(value.value), Boolean, writable)) else None
  }

  function IntegerField(r: Response, key: Key, vendor: VendorKey, min: int, max: int, step: int, writable: bool)
    : Option<SettingField>
  {
    var value := IntegerValue(Get(r, vendor));
    if value.Some? then
      Some(NewField(key, Integer(value.value), Whole, writable).(min := Some(min),
                                                                 max := Some(max), step := Some(step)))
    else None
  }

  function SelectField(key: Key, current: string, options: seq<string>, writable: bool): Option<SettingField> {
    if current in options then Some(NewField(key, Text(current), Select, writable).(options := options)) else None
  }

  function Strings(items: seq<Json>): seq<string> {
    if items == [] then []
    else (if items[0].Text? then [items[0].s] else []) + Strings(items[1..])
  }

  function QualityOptions(r: Response, current: string): seq<string> {
    var support := Get(r, VideoQualitySupport);
    var options := if support.List? then Strings(support.items) else ["saver", "standard", "best"];
    if current in options then options else options + [current]
  }

  function NightVisionValue(j: Json): Option<string> {
    if j.Text? && j.s in ["off", "on", "auto"] then Some(j.s)
    else
      match IntegerValue(j)
      case Some(n) => if n == 0 then Some("off")
                    else if n == 1 then Some("on") else if n == 2 then Some("auto") else None
      case None => None
  }

  function IrValue(j: Json): Option<string> {
    match IntegerValue(j)
    case Some(n) => if n == 1 then Some("low")
                    else if n == 4 then Some("medium") else if n == 7 then Some("high") else None
    case None => None
  }

  function ClipVendor(camera: Camera): VendorKey {
    if camera.kind == Mini then ClipLength else VideoLength
  }

  function RetriggerVendor(camera: Camera): VendorKey {
    if camera.kind == Mini then RetriggerTime else AlertInterval
  }

  function Limits(camera: Camera): (int, int) {
    if camera.product == CatalinaIndoor then (32, 95) else (-4, 113)
  }

  /** A threshold that is missing while alerts are known is shown as null, never as a made-up default. */
  function ThresholdField(r: Response, camera: Camera, key: Key, vendor: VendorKey): Option<SettingField> {
    var writable := camera.kind == Default && r.temp.Some?;
    var (low, high) := Limits(camera);
    if IntegerValue(Get(r, vendor)).Some? then IntegerField(r, key, vendor, low, high, 1, writable)
    else if camera.kind == Default && TempAlarmEnable in r.config
    then Some(NewField(key, Null, Whole, writable).(min := Some(low), max := Some(high), step := Some(1)))
    else None
  }

  function FieldOf(r: Response, camera: Camera, key: Key): Option<SettingField> {
    var mutable := camera.kind != Other;
    match key
    case MotionDetection => BoolField(r, key, Enabled, mutable)
    case VideoRecording =>
      BoolField(r, key, VideoRecordingEnable, mutable && BoolValue(Get(r, VideoRecordingOptional)) != Some(false))
    case AudioStreaming =>
      BoolField(r, key, RecordAudioEnable, mutable && BoolValue(Get(r, RecordAudio)) != Some(false))
    case ClipSeconds =>
      var longest := IntegerValue(Get(r, ClipLengthMax));
      IntegerField(r, key, ClipVendor(camera), 5, if longest.Some? then longest.value else 60, 5, mutable)
    case Quality =>
      var current := Get(r, VideoQuality);
      if current.Text? then SelectField(key, current.s, QualityOptions(r, current.s), mutable) else None
    case EndClipEarly =>
      BoolField(r, key, EarlyTermination, mutable && BoolValue(Get(r, EarlyTerminationSupported)) != Some(false))
    case NightVision =>
      var current := NightVisionValue(Get(r, IlluminatorEnable));
      if current.Some? then SelectField(key, current.value, ["off", "on", "auto"], mutable) else None
    case Sensitivity => IntegerField(r, key, MotionSensitivity, 1, 9, 1, mutable)
    case Retrigger => IntegerField(r, key, RetriggerVendor(camera), 10, 60, 10, mutable)
    case EarlyNotice =>
      BoolField(r, key, EarlyNotification, mutable && BoolValue(Get(r, EarlyNotificationCompatible)) != Some(false))
    case CameraName =>
      var current := Get(r, Name);
      if current.Text? then Some(NewField(key, current, Words, mutable).(max := Some(255))) else None
    case Flip =>
      if BoolValue(Get(r, FlipVideoCompatible)) == Some(true) then BoolField(r, key, FlipVideo, mutable) else None
    case IrIntensity =>
      var current := IrValue(Get(r, IlluminatorIntensity));
      if current.Some? then SelectField(key, current.value, ["low", "medium", "high"], mutable) else None
    case StatusLed =>
      var current := Get(r, LedState);
      if current.Text?
      then SelectField(key, current.s, if camera.kind == Mini then ["on", "off", "recording"] else ["off", "recording"],
                       mutable)
      else None
    case PhotoCapture =>
      if camera.product == Catalina && BoolValue(Get(r, SnapshotCompatible)) == Some(true)
      then BoolField(r, key, SnapshotEnabled, mutable) else None
    case AutoThumbnail =>
      if camera.product != Owl then BoolField(r, key, AutoUpdateThumbnailEnabled, false) else None
    case SpeakerVolume =>
      if camera.kind == Mini then IntegerField(r, key, VolumeControl, 1, 8, 1, mutable) else None
    case SyncStrength => IntegerField(r, key, LfrStrength, -100, 0, 1, false)
    case TemperatureAlerts => BoolField(r, key, TempAlarmEnable, camera.kind == Default)
    case TemperatureMin => ThresholdField(r, camera, key, TempMin)
    case TemperatureMax => ThresholdField(r, camera, key, TempMax)
  }

  // ---------- checking and encoding a new value

  predicate Space(c: char) {
    var n := c as int;
    9 <= n <= 13 || n == 32 || n == 0x85 || n == 0xA0 || n == 0x1680 || 0x2000 <= n <= 0x200A
    || n == 0x2028 || n == 0x2029 || n == 0x202F || n == 0x205F || n == 0x3000
  }

  predicate Control(c: char) {
    var n := c as int;
    n <= 0x1F || 0x7F <= n <= 0x9F
  }

  function Trim(s: string): string {
    if s == [] then s
    else if Space(s[0]) then Trim(s[1..])
    else if Space(s[|s| - 1]) then Trim(s[..|s| - 1])
    else s
  }

  function Validated(field: SettingField, value: Json): Result<Json, SettingError> {
    if !field.writable then Err(Unsupported)
    else
      match field.kind
      case Boolean => if value.Bool? then Ok(value) else Err(Invalid)
      case Whole =>
        var number := AsI64(value);
        if number.None? || field.min.None? || field.max.None? || field.step.None? || field.step.value == 0
        then Err(Invalid)
        else if number.value < field.min.value || number.value > field.max.value
                || (number.value - field.min.value) % field.step.value != 0 then Err(Invalid)
        else Ok(Integer(number.value))
      case Select => if value.Text? && value.s in field.options then Ok(value) else Err(Invalid)
      case Words =>
        if value.Text? && field.max.Some? then
          var text := Trim(value.s);
          if text == [] || |text| > field.max.value || exists c :: c in text && Control(c) then Err(Invalid)
          else Ok(Text(text))
        else Err(Invalid)
  }

  function VendorKeyOf(camera: Camera, key: Key): Option<VendorKey> {
    match key
    case MotionDetection => Some(Enabled)
    case VideoRecording => Some(VideoRecordingEnable)
    case AudioStreaming => Some(RecordAudioEnable)
    case ClipSeconds => Some(ClipVendor(camera))
    case Quality => Some(VideoQuality)
    case EndClipEarly => Some(EarlyTermination)
    case NightVision => Some(IlluminatorEnable)
    case IrIntensity => Some(IlluminatorIntensity)
    case Sensitivity => Some(MotionSensitivity)
    case Retrigger => Some(RetriggerVendor(camera))
    case EarlyNotice => Some(EarlyNotification)
    case Flip => Some(FlipVideo)
    case PhotoCapture => Some(SnapshotEnabled)
    case AutoThumbnail => Some(AutoUpdateThumbnailEnabled)
    case StatusLed => Some(LedState)
    case SpeakerVolume => if camera.kind == Mini then Some(VolumeControl) else None
    case CameraName => Some(Name)
    case TemperatureAlerts => Some(TempAlarmEnable)
    case TemperatureMin => Some(TempMin)
    case TemperatureMax => Some(TempMax)
    case SyncStrength => None
  }

  function Encode(key: Key, current: Json, desired: Json): Result<Json, SettingError> {
    if key == IrIntensity then
      if desired == Text("low") then Ok(Integer(1))
      else if desired == Text("medium") then Ok(Integer(4))
      else if desired == Text("high") then Ok(Integer(7))
      else Err(Invalid)
    else if key == NightVision then
      if !desired.Text? then Err(Invalid)
      else if current.Text? then Ok(desired)
      else if desired.s == "off" then Ok(Integer(0))
      else if desired.s == "on" then Ok(Integer(1))
      else if desired.s == "auto" then Ok(Integer(2))
      else Err(Invalid)
    else if AsI64(current).Some? && desired.Bool? then Ok(Integer(if desired.b then 1 else 0))
    else Ok(desired)
  }

  // ---------- writing

  /** The body Blink's threshold call needs: both thresholds and the temperature just measured. */
  datatype Body = Body(low: int, high: int, current: int)

  function ThresholdBody(r: Response, key: Key, value: Json): Result<Body, SettingError> {
    var low, high := IntegerValue(Get(r, TempMin)), IntegerValue(Get(r, TempMax));
    if low.None? || high.None? || r.temp.None? then Err(Unsupported)
    else if AsI64(value).None? || !(key.TemperatureMin? || key.TemperatureMax?) then Err(Invalid)
    else
      var body := if key.TemperatureMin? then Body(AsI64(value).value, high.value, r.temp.value)
                  else Body(low.value, AsI64(value).value, r.temp.value);
      if !I64(body.high - body.low) || body.high - body.low < 10 then Err(Invalid) else Ok(body)
  }

  function WithThresholds(r: Response, body: Body): Response {
    r.(config := r.config[TempMin := Integer(body.low)][TempMax := Integer(body.high)])
  }

  /** What a write asks the provider to change. */
  datatype Patch = Thresholds(body: Body) | Alerts(on: bool) | Entry(vendor: VendorKey, value: Json)

  /** The request for a write; thresholds are completed from the document `r` that is read first. */
  function Asked(r: Response, camera: Camera, key: Key, vendor: VendorKey, value: Json): Result<Patch, SettingError> {
    if key.TemperatureMin? || key.TemperatureMax? then
      if camera.kind != Default then Err(Unsupported)
      else
        var body := ThresholdBody(r, key, value);
        if body.Err? then Err(body.error) else Ok(Thresholds(body.value))
    else if key.TemperatureAlerts? then
      var enabled := BoolValue(value);
      if enabled.None? then Err(Invalid) else Ok(Alerts(enabled.value))
    else Ok(Entry(vendor, value))
  }

  /** The document after the provider took a write. An alert switch keeps the representation it had. */
  function Apply(r: Response, patch: Patch): Response {
    match patch
    case Thresholds(body) => WithThresholds(r, body)
    case Alerts(on) =>
      var kept := if AsI64(Get(r, TempAlarmEnable)).Some? then Integer(if on then 1 else 0) else Bool(on);
      r.(config := r.config[TempAlarmEnable := kept])
    case Entry(vendor, value) => r.(config := r.config[vendor := value])
  }

  /** The request for an accepted change: checked and encoded. */
  function Change(r: Response, camera: Camera, key: Key, value: Json): Result<Patch, SettingError> {
    var field := FieldOf(r, camera, key);
    if field.None? then Err(Unsupported)
    else
      var desired := Validated(field.value, value);
      if desired.Err? then Err(desired.error)
      else
        var vendor := VendorKeyOf(camera, key);
        if vendor.None? || vendor.value !in r.config then Err(Unsupported)
        else
          var encoded := Encode(key, r.config[vendor.value], desired.value);
          if encoded.Err? then Err(encoded.error) else Asked(r, camera, key, vendor.value, encoded.value)
  }

  /** One accepted change: checked, encoded and written. */
  function Changed(r: Response, camera: Camera, key: Key, value: Json): Result<Response, SettingError> {
    var change := Change(r, camera, key, value);
    if change.Err? then Err(change.error) else Ok(Apply(r, change.value))
  }

  // ---------- round trip and frame

  /** The document entries a field is read from. */
  function Reads(camera: Camera, key: Key): set<VendorKey> {
    match key
    case MotionDetection => {Enabled}
    case VideoRecording => {VideoRecordingEnable, VideoRecordingOptional}
    case AudioStreaming => {RecordAudioEnable, RecordAudio}
    case ClipSeconds => {ClipVendor(camera), ClipLengthMax}
    case Quality => {VideoQuality, VideoQualitySupport}
    case EndClipEarly => {EarlyTermination, EarlyTerminationSupported}
    case NightVision => {IlluminatorEnable}
    case Sensitivity => {MotionSensitivity}
    case Retrigger => {RetriggerVendor(camera)}
    case EarlyNotice => {EarlyNotification, EarlyNotificationCompatible}
    case CameraName => {Name}
    case Flip => {FlipVideo, FlipVideoCompatible}
    case IrIntensity => {IlluminatorIntensity}
    case StatusLed => {LedState}
    case PhotoCapture => {SnapshotEnabled, SnapshotCompatible}
    case AutoThumbnail => {AutoUpdateThumbnailEnabled}
    case SpeakerVolume => {VolumeControl}
    case SyncStrength => {LfrStrength}
    case TemperatureAlerts => {TempAlarmEnable}
    case TemperatureMin => {TempMin}
    case TemperatureMax => {TempMax}
  }

  /** A field depends on nothing but its entries, the measured temperature and whether alerts are known. */
  lemma FieldReads(r: Response, s: Response, camera: Camera, key: Key)
    requires r.temp == s.temp && (TempAlarmEnable in r.config <==> TempAlarmEnable in s.config)
    requires forall vendor :: vendor in Reads(camera, key) ==> Get(r, vendor) == Get(s, vendor)
    ensures FieldOf(r, camera, key) == FieldOf(s, camera, key)
  {
    hide Get, IntegerValue, BoolValue, NightVisionValue, IrValue;
    QualityReads(r, s);
  }

  lemma QualityReads(r: Response, s: Response)
    ensures Get(r, VideoQualitySupport) == Get(s, VideoQualitySupport) ==>
              forall current :: QualityOptions(r, current) == QualityOptions(s, current)
  {
  }

  lemma OneReader(camera: Camera, key: Key, other: Key)
    requires key != other && VendorKeyOf(camera, key).Some?
    ensures VendorKeyOf(camera, key).value !in Reads(camera, other)
  {
  }

  lemma SettingOneEntry(r: Response, camera: Camera, key: Key, vendor: VendorKey, value: Json, other: Key)
    requires VendorKeyOf(camera, key) == Some(vendor) && vendor in r.config && key != other
    ensures FieldOf(r.(config := r.config[vendor := value]), camera, other) == FieldOf(r, camera, other)
  {
    OneReader(camera, key, other);
    hide VendorKeyOf, Reads;
    FieldReads(r, r.(config := r.config[vendor := value]), camera, other);
  }

  lemma ThresholdsReadAlone(camera: Camera, key: Key)
    requires !key.TemperatureMin? && !key.TemperatureMax?
    ensures TempMin !in Reads(camera, key) && TempMax !in Reads(camera, key)
  {
  }

  lemma WritingThresholds(r: Response, camera: Camera, key: Key, value: Json, other: Key)
    requires ThresholdBody(r, key, value).Ok? && key != other
    ensures FieldOf(WithThresholds(r, ThresholdBody(r, key, value).value), camera, other) == FieldOf(r, camera, other)
  {
    hide *;
    if other.TemperatureMin? || other.TemperatureMax? {
      EchoedThreshold(r, camera, key, value, other);
    } else {
      OtherThanThresholds(r, camera, ThresholdBody(r, key, value).value, other);
    }
  }

  lemma EchoedThreshold(r: Response, camera: Camera, key: Key, value: Json, other: Key)
    requires ThresholdBody(r, key, value).Ok? && key != other && (other.TemperatureMin? || other.TemperatureMax?)
    ensures FieldOf(WithThresholds(r, ThresholdBody(r, key, value).value), camera, other) == FieldOf(r, camera, other)
  {
    var body := ThresholdBody(r, key, value).value;
    var s := WithThresholds(r, body);
    EchoIsInteger(r);
    assert I64(body.low) && I64(body.high);
    ThresholdsRead(r, body);
    assert IntegerValue(Get(r, TempMin)).Some? && IntegerValue(Get(r, TempMax)).Some?;
    var vendor := if other.TemperatureMin? then TempMin else TempMax;
    assert IntegerValue(Get(s, vendor)) == IntegerValue(Get(r, vendor));
    hide ThresholdBody, IntegerValue, Get, WithThresholds;
    WithThresholdsKeepsTemp(r, body);
    ThresholdReads(r, s, camera, other, vendor);
    hide ThresholdField;
  }

  lemma OtherThanThresholds(r: Response, camera: Camera, body: Body, other: Key)
    requires !other.TemperatureMin? && !other.TemperatureMax?
    ensures FieldOf(WithThresholds(r, body), camera, other) == FieldOf(r, camera, other)
  {
    hide Reads, FieldOf, IntegerValue;
    ThresholdsReadAlone(camera, other);
    FieldReads(r, WithThresholds(r, body), camera, other);
  }

  /** A threshold that was read is a 64-bit integer, so echoing it changes nothing that is read. */
  lemma EchoIsInteger(r: Response)
    ensures forall vendor :: IntegerValue(Get(r, vendor)).Some? ==> I64(IntegerValue(Get(r, vendor)).value)
  {
  }

  /** Frame: an accepted change leaves every other field exactly as it was. */
  lemma ChangeLeavesOthers(r: Response, camera: Camera, key: Key, value: Json, other: Key)
    requires Changed(r, camera, key, value).Ok? && key != other
    ensures FieldOf(Changed(r, camera, key, value).value, camera, other) == FieldOf(r, camera, other)
  {
    var desired := Validated(FieldOf(r, camera, key).value, value).value;
    var vendor := VendorKeyOf(camera, key).value;
    var encoded := Encode(key, r.config[vendor], desired).value;
    hide FieldOf, Validated, Encode, ThresholdBody;
    if key.TemperatureMin? || key.TemperatureMax? {
      WritingThresholds(r, camera, key, encoded, other);
    } else if key.TemperatureAlerts? {
      var kept := if AsI64(Get(r, TempAlarmEnable)).Some? then Integer(if BoolValue(encoded).value then 1 else 0)
                  else Bool(BoolValue(encoded).value);
      SettingOneEntry(r, camera, key, TempAlarmEnable, kept, other);
    } else {
      SettingOneEntry(r, camera, key, vendor, encoded, other);
    }
  }

  function KindFor(key: Key): SettingKind {
    match key
    case ClipSeconds => Whole
    case Sensitivity => Whole
    case Retrigger => Whole
    case SpeakerVolume => Whole
    case SyncStrength => Whole
    case TemperatureMin => Whole
    case TemperatureMax => Whole
    case Quality => Select
    case NightVision => Select
    case IrIntensity => Select
    case StatusLed => Select
    case CameraName => Words
    case _ => Boolean
  }

  /** The field keeps its kind and shows exactly the accepted value. */
  ghost predicate Shows(s: Response, camera: Camera, was: SettingField, desired: Json) {
    && FieldOf(s, camera, was.key).Some?
    && var now := FieldOf(s, camera, was.key).value;
       now.value == desired && now.key == was.key && now.kind == was.kind && now.writable == was.writable
  }

  lemma SwitchShows(r: Response, camera: Camera, key: Key, desired: Json)
    requires FieldOf(r, camera, key).Some? && KindFor(key) == Boolean && desired.Bool?
    requires VendorKeyOf(camera, key).Some? && VendorKeyOf(camera, key).value in r.config
    requires !key.TemperatureAlerts?
    ensures var vendor := VendorKeyOf(camera, key).value;
            && Encode(key, r.config[vendor], desired).Ok?
            && Shows(r.(config := r.config[vendor := Encode(key, r.config[vendor], desired).value]), camera,
                     FieldOf(r, camera, key).value, desired)
  {
    hide IntegerValue, NightVisionValue, IrValue, QualityOptions, ThresholdField;
  }

  lemma NumberShows(r: Response, camera: Camera, key: Key, n: int)
    requires FieldOf(r, camera, key).Some? && KindFor(key) == Whole && I64(n)
    requires VendorKeyOf(camera, key).Some? && VendorKeyOf(camera, key).value in r.config
    requires !key.TemperatureMin? && !key.TemperatureMax?
    ensures var vendor := VendorKeyOf(camera, key).value;
            && Encode(key, r.config[vendor], Integer(n)) == Ok(Integer(n))
            && Shows(r.(config := r.config[vendor := Integer(n)]), camera, FieldOf(r, camera, key).value, Integer(n))
  {
    hide NightVisionValue, IrValue, QualityOptions, ThresholdField, BoolValue;
  }

  /** A choice stays among the options, also when the current one was only there because it was current. */
  lemma QualityShows(r: Response, camera: Camera, choice: string)
    requires FieldOf(r, camera, Quality).Some? && choice in FieldOf(r, camera, Quality).value.options
    requires VideoQuality in r.config
    ensures Shows(r.(config := r.config[VideoQuality := Text(choice)]), camera, FieldOf(r, camera, Quality).value,
                  Text(choice))
  {
    hide ThresholdField, BoolValue, IntegerField, BoolField, NightVisionValue, IrValue;
    assert Get(r.(config := r.config[VideoQuality := Text(choice)]), VideoQualitySupport)
        == Get(r, VideoQualitySupport);
  }

  lemma ChoiceShows(r: Response, camera: Camera, key: Key, choice: string)
    requires FieldOf(r, camera, key).Some? && KindFor(key) == Select && !key.Quality?
    requires choice in FieldOf(r, camera, key).value.options
    requires VendorKeyOf(camera, key).Some? && VendorKeyOf(camera, key).value in r.config
    ensures var vendor := VendorKeyOf(camera, key).value;
            && Encode(key, r.config[vendor], Text(choice)).Ok?
            && Shows(r.(config := r.config[vendor := Encode(key, r.config[vendor], Text(choice)).value]), camera,
                     FieldOf(r, camera, key).value, Text(choice))
  {
    ChoiceIsParsed(choice);
    hide ThresholdField, BoolValue, IntegerField, BoolField, QualityOptions, NightVisionValue, IrValue;
  }

  lemma ChoiceIsParsed(choice: string)
    ensures choice in ["off", "on", "auto"] ==> NightVisionValue(Text(choice)) == Some(choice)
    ensures NightVisionValue(Integer(0)) == Some("off") && NightVisionValue(Integer(1)) == Some("on")
    ensures NightVisionValue(Integer(2)) == Some("auto")
    ensures IrValue(Integer(1)) == Some("low") && IrValue(Integer(4)) == Some("medium")
            && IrValue(Integer(7)) == Some("high")
  {
  }

  lemma ThresholdShows(r: Response, camera: Camera, key: Key, value: Json)
    requires FieldOf(r, camera, key).Some? && ThresholdBody(r, key, value).Ok? && AsI64(value).Some?
    ensures var body := ThresholdBody(r, key, value).value;
            Shows(WithThresholds(r, body), camera,
                  FieldOf(r, camera, key).value, value)
  {
    EchoIsInteger(r);
  }

  lemma AlertSwitchShows(r: Response, camera: Camera, enabled: bool)
    requires FieldOf(r, camera, TemperatureAlerts).Some?
    ensures var kept := if AsI64(Get(r, TempAlarmEnable)).Some? then Integer(if enabled then 1 else 0)
                        else Bool(enabled);
            Shows(r.(config := r.config[TempAlarmEnable := kept]), camera, FieldOf(r, camera, TemperatureAlerts).value,
                  Bool(enabled))
  {
    hide ThresholdField, IntegerValue;
  }

  /** Round trip: reading the document back after an accepted change shows the accepted value. */
  lemma ChangeIsReadBack(r: Response, camera: Camera, key: Key, value: Json)
    requires Changed(r, camera, key, value).Ok?
    ensures var was := FieldOf(r, camera, key).value;
            Shows(Changed(r, camera, key, value).value, camera, was, Validated(was, value).value)
  {
    var was := FieldOf(r, camera, key).value;
    var desired := Validated(was, value).value;
    var vendor := VendorKeyOf(camera, key).value;
    KindOfKey(r, camera, key);
    if key.TemperatureMin? || key.TemperatureMax? {
      assert Encode(key, r.config[vendor], desired) == Ok(desired);
      hide FieldOf, Shows;
      ThresholdShows(r, camera, key, desired);
    } else if key.TemperatureAlerts? {
      AlertEncoding(r.config[vendor], desired);
      hide FieldOf, Shows, Encode;
      AlertSwitchShows(r, camera, desired.b);
    } else {
      hide FieldOf, Shows, Encode;
      match was.kind {
        case Boolean => SwitchShows(r, camera, key, desired);
        case Whole => NumberShows(r, camera, key, desired.n);
        case Select =>
          if key.Quality? {
            PlainEncoding(r.config[vendor], desired.s);
            QualityShows(r, camera, desired.s);
          } else {
            ChoiceShows(r, camera, key, desired.s);
          }
        case Words => NameShows(r, camera, key, desired.s);
      }
    }
  }

  lemma PlainEncoding(current: Json, choice: string)
    ensures Encode(Quality, current, Text(choice)) == Ok(Text(choice))
  {
  }

  lemma AlertEncoding(current: Json, desired: Json)
    requires desired.Bool?
    ensures Encode(TemperatureAlerts, current, desired).Ok?
    ensures BoolValue(Encode(TemperatureAlerts, current, desired).value) == Some(desired.b)
  {
  }

  lemma NameShows(r: Response, camera: Camera, key: Key, name: string)
    requires FieldOf(r, camera, key).Some? && KindFor(key) == Words
    requires VendorKeyOf(camera, key).Some? && VendorKeyOf(camera, key).value in r.config
    ensures var vendor := VendorKeyOf(camera, key).value;
            && Encode(key, r.config[vendor], Text(name)) == Ok(Text(name))
            && Shows(r.(config := r.config[vendor := Text(name)]), camera, FieldOf(r, camera, key).value, Text(name))
  {
    hide ThresholdField, BoolValue, IntegerValue, NightVisionValue, IrValue, QualityOptions;
  }

  lemma KindOfKey(r: Response, camera: Camera, key: Key)
    requires FieldOf(r, camera, key).Some?
    ensures FieldOf(r, camera, key).value.key == key && FieldOf(r, camera, key).value.kind == KindFor(key)
  {
    hide IntegerValue, BoolValue, NightVisionValue, IrValue, QualityOptions;
  }

  // ---------- writing the old value back

  /** The thresholds a document holds pass the gap check. */
  predicate GapHolds(r: Response) {
    var low, high := IntegerValue(Get(r, TempMin)), IntegerValue(Get(r, TempMax));
    low.Some? && high.Some? && I64(high.value - low.value) && high.value - low.value >= 10
  }

  /** A threshold change asks for a completed body. */
  lemma ThresholdChange(r: Response, camera: Camera, key: Key, value: Json) returns (encoded: Json)
    requires (key.TemperatureMin? || key.TemperatureMax?) && Changed(r, camera, key, value).Ok?
    ensures camera.kind == Default && ThresholdBody(r, key, encoded).Ok?
    ensures Change(r, camera, key, value) == Ok(Thresholds(ThresholdBody(r, key, encoded).value))
    ensures VendorKeyOf(camera, key).value in r.config
  {
    hide FieldOf, Validated, Encode, ThresholdBody, Apply;
    encoded := Encode(key, r.config[VendorKeyOf(camera, key).value],
                      Validated(FieldOf(r, camera, key).value, value).value).value;
  }

  /** A threshold that was taken leaves both thresholds at least 10 degrees apart. */
  lemma ThresholdChangeKeepsGap(r: Response, camera: Camera, key: Key, value: Json)
    requires (key.TemperatureMin? || key.TemperatureMax?) && Changed(r, camera, key, value).Ok?
    ensures GapHolds(Changed(r, camera, key, value).value)
  {
    hide Change, WithThresholds, IntegerValue, Get, FieldOf, ThresholdBody, Encode, Validated;
    var encoded := ThresholdChange(r, camera, key, value);
    var body := ThresholdBody(r, key, encoded).value;
    CompletedBody(r, key, encoded);
    ThresholdsRead(r, body);
  }

  lemma CompletedBody(r: Response, key: Key, encoded: Json)
    requires (key.TemperatureMin? || key.TemperatureMax?) && ThresholdBody(r, key, encoded).Ok?
    ensures var body := ThresholdBody(r, key, encoded).value;
            I64(body.low) && I64(body.high) && I64(body.high - body.low) && body.high - body.low >= 10
  {
    EchoIsInteger(r);
    hide Get;
  }

  lemma ThresholdsRead(r: Response, body: Body)
    requires I64(body.low) && I64(body.high)
    ensures IntegerValue(Get(WithThresholds(r, body), TempMin)) == Some(body.low)
    ensures IntegerValue(Get(WithThresholds(r, body), TempMax)) == Some(body.high)
    ensures forall vendor :: vendor != TempMin && vendor != TempMax ==>
              (vendor in WithThresholds(r, body).config <==> vendor in r.config)
              && Get(WithThresholds(r, body), vendor) == Get(r, vendor)
  {
  }

  /**
   * Every request for a threshold carries the measured temperature of the document it is completed from, the desired
   * value on its own side and the stored threshold on the other; and there is such a request exactly when all three are
   * integers of the document and the value and the thresholds would be 10 degrees apart.
   */
  lemma ThresholdRequest(r: Response, key: Key, value: Json)
    requires key.TemperatureMin? || key.TemperatureMax?
    ensures var low, high := IntegerValue(Get(r, TempMin)), IntegerValue(Get(r, TempMax));
            var body := ThresholdBody(r, key, value);
            && (body.Ok? <==>
                  && low.Some? && high.Some? && r.temp.Some? && AsI64(value).Some?
                  && var gap := if key.TemperatureMin? then high.value - AsI64(value).value
                                else AsI64(value).value - low.value;
                     10 <= gap <= 0x7fff_ffff_ffff_ffff)
            && (body.Ok? && key.TemperatureMin? ==>
                  body.value == Body(AsI64(value).value, high.value, r.temp.value))
            && (body.Ok? && key.TemperatureMax? ==>
                  body.value == Body(low.value, AsI64(value).value, r.temp.value))
            && (body.Err? ==>
                  body.error == if low.Some? && high.Some? && r.temp.Some? then Invalid else Unsupported)
  {
    hide IntegerValue, AsI64, Get;
  }

  /** The body that takes a threshold back is the pair of old thresholds. */
  lemma BackBodyIff(r: Response, key: Key, value: Json, current: Json)
    requires (key.TemperatureMin? || key.TemperatureMax?) && ThresholdBody(r, key, value).Ok?
    requires current == Get(r, if key.TemperatureMin? then TempMin else TempMax)
    ensures var back := ThresholdBody(WithThresholds(r, ThresholdBody(r, key, value).value), key, current);
            && (back.Ok? <==> AsI64(current).Some? && GapHolds(r))
            && (back.Ok? ==>
                  && Some(back.value.low) == IntegerValue(Get(r, TempMin))
                  && Some(back.value.high) == IntegerValue(Get(r, TempMax)))
  {
    var body := ThresholdBody(r, key, value).value;
    EchoIsInteger(r);
    assert I64(body.low) && I64(body.high);
    ThresholdsRead(r, body);
    hide WithThresholds;
  }

  lemma WithThresholdsKeepsTemp(r: Response, body: Body)
    ensures WithThresholds(r, body).temp == r.temp
  {
  }

  lemma ThresholdReads(r: Response, s: Response, camera: Camera, key: Key, vendor: VendorKey)
    requires s.temp == r.temp && (TempAlarmEnable in r.config <==> TempAlarmEnable in s.config)
    requires IntegerValue(Get(s, vendor)) == IntegerValue(Get(r, vendor))
    ensures ThresholdField(s, camera, key, vendor) == ThresholdField(r, camera, key, vendor)
  {
    hide IntegerValue, Get;
  }

  lemma SameThresholdField(r: Response, s: Response, camera: Camera, key: Key)
    requires (key.TemperatureMin? || key.TemperatureMax?) && s.temp == r.temp
    requires TempAlarmEnable in r.config <==> TempAlarmEnable in s.config
    requires IntegerValue(Get(s, TempMin)) == IntegerValue(Get(r, TempMin))
    requires IntegerValue(Get(s, TempMax)) == IntegerValue(Get(r, TempMax))
    ensures FieldOf(s, camera, key) == FieldOf(r, camera, key)
  {
    ThresholdReads(r, s, camera, key, if key.TemperatureMin? then TempMin else TempMax);
    hide ThresholdField, IntegerValue, Get;
  }

  /** Two documents that differ at most in how they store thresholds and the alert switch. */
  ghost predicate Alike(r: Response, s: Response) {
    && r.temp == s.temp && (TempAlarmEnable in r.config <==> TempAlarmEnable in s.config)
    && (forall vendor :: vendor != TempMin && vendor != TempMax && vendor != TempAlarmEnable ==>
          Get(r, vendor) == Get(s, vendor))
    && IntegerValue(Get(r, TempMin)) == IntegerValue(Get(s, TempMin))
    && IntegerValue(Get(r, TempMax)) == IntegerValue(Get(s, TempMax))
    && BoolValue(Get(r, TempAlarmEnable)) == BoolValue(Get(s, TempAlarmEnable))
  }

  lemma AlikeTransitive(r: Response, s: Response, t: Response)
    requires Alike(r, s) && Alike(s, t)
    ensures Alike(r, t)
  {
    hide IntegerValue, BoolValue, Get;
  }

  lemma AlikeSameField(r: Response, s: Response, camera: Camera, key: Key)
    requires Alike(r, s)
    ensures FieldOf(r, camera, key) == FieldOf(s, camera, key)
  {
    if key.TemperatureMin? || key.TemperatureMax? {
      SameThresholdField(s, r, camera, key);
    } else if key.TemperatureAlerts? {
      hide BoolValue, IntegerValue, ThresholdField;
    } else {
      assert TempMin !in Reads(camera, key) && TempMax !in Reads(camera, key) && TempAlarmEnable !in Reads(camera, key);
      hide Reads, FieldOf, IntegerValue, BoolValue, Get;
      FieldReads(r, s, camera, key);
    }
  }

  /** The request changes a threshold to 64-bit integers, or an entry that is neither a threshold nor the switch. */
  predicate Proper(p: Patch) {
    && (p.Thresholds? ==> I64(p.body.low) && I64(p.body.high))
    && (p.Entry? ==> p.vendor != TempMin && p.vendor != TempMax && p.vendor != TempAlarmEnable)
  }

  /** Of two writes of the same setting the later one decides what is read. */
  predicate SameTarget(p: Patch, q: Patch) {
    match p
    case Thresholds(_) => q.Thresholds?
    case Alerts(_) => q.Alerts?
    case Entry(vendor, _) => q.Entry? && q.vendor == vendor
  }

  lemma AlertsRead(r: Response, on: bool)
    ensures var s := Apply(r, Alerts(on));
            && s.temp == r.temp && TempAlarmEnable in s.config && BoolValue(Get(s, TempAlarmEnable)) == Some(on)
            && forall vendor :: vendor != TempAlarmEnable ==> Get(s, vendor) == Get(r, vendor)
  {
  }

  lemma LaterEntriesDecide(r: Response, p: Patch, q: Patch)
    requires SameTarget(p, q) && Proper(q) && !p.Alerts?
    ensures Apply(Apply(r, p), q) == Apply(r, q)
  {
    hide AsI64, Get;
    if p.Thresholds? {
      assert WithThresholds(WithThresholds(r, p.body), q.body) == WithThresholds(r, q.body);
    }
  }

  lemma AlikeItself(r: Response)
    ensures Alike(r, r)
  {
    hide Get, IntegerValue, BoolValue;
  }

  lemma LaterAlertsDecide(r: Response, p: Patch, q: Patch)
    requires SameTarget(p, q) && p.Alerts?
    ensures Alike(Apply(Apply(r, p), q), Apply(r, q))
  {
    hide Apply, Get, IntegerValue, BoolValue;
    AlertsRead(r, p.on);
    AlertsRead(Apply(r, p), q.on);
    AlertsRead(r, q.on);
  }

  lemma LaterWriteDecides(r: Response, p: Patch, q: Patch)
    requires SameTarget(p, q) && Proper(q)
    ensures Alike(Apply(Apply(r, p), q), Apply(r, q))
  {
    hide *;
    if p.Alerts? {
      LaterAlertsDecide(r, p, q);
    } else {
      LaterEntriesDecide(r, p, q);
      AlikeItself(Apply(r, q));
    }
  }

  lemma ApplyKeepsAlike(r: Response, s: Response, p: Patch)
    requires Alike(r, s) && Proper(p)
    ensures Alike(Apply(r, p), Apply(s, p))
  {
    match p {
      case Thresholds(body) =>
        ThresholdsRead(r, body);
        ThresholdsRead(s, body);
        WithThresholdsKeepsTemp(r, body);
        WithThresholdsKeepsTemp(s, body);
        hide WithThresholds, IntegerValue, BoolValue, Get;
      case Alerts(on) =>
        AlertsRead(r, on);
        AlertsRead(s, on);
        hide Apply, IntegerValue, BoolValue, Get;
      case Entry(vendor, value) =>
        forall other | other != TempMin && other != TempMax && other != TempAlarmEnable
          ensures Get(Apply(r, p), other) == Get(Apply(s, p), other)
        {
          assert Get(r, other) == Get(s, other);
        }
    }
  }

  lemma RequestIsProper(r: Response, camera: Camera, key: Key, value: Json)
    requires VendorKeyOf(camera, key).Some?
    requires Asked(r, camera, key, VendorKeyOf(camera, key).value, value).Ok?
    ensures Proper(Asked(r, camera, key, VendorKeyOf(camera, key).value, value).value)
  {
    EchoIsInteger(r);
  }

  /**
   * When the read-back does not show the change, the document is either still the old one, because the write was
   * ignored, or the changed one, because it came late. From both the code asks for the same write of the old entry.
   * It is refused for a threshold that Blink had stored as text or as a fraction-free float, and for thresholds that
   * were too close together to begin with; otherwise every field is what it was.
   */
  lemma WritingBackIff(r: Response, camera: Camera, key: Key, value: Json)
    requires Changed(r, camera, key, value).Ok?
    ensures var s := Changed(r, camera, key, value).value;
            var vendor := VendorKeyOf(camera, key).value;
            var back := Asked(r, camera, key, vendor, r.config[vendor]);
            && Asked(s, camera, key, vendor, r.config[vendor]) == back
            && (back.Ok? <==> (key.TemperatureMin? || key.TemperatureMax? ==>
                                 AsI64(r.config[vendor]).Some? && GapHolds(r)))
            && (back.Ok? ==> Alike(Apply(r, back.value), r) && Alike(Apply(s, back.value), r))
  {
    if key.TemperatureMin? || key.TemperatureMax? {
      ThresholdBackIff(r, camera, key, value);
    } else if key.TemperatureAlerts? {
      AlertBack(r, camera, value);
    } else {
      PlainBack(r, camera, key, value);
    }
  }

  lemma ThresholdBackIff(r: Response, camera: Camera, key: Key, value: Json)
    requires (key.TemperatureMin? || key.TemperatureMax?) && Changed(r, camera, key, value).Ok?
    ensures var s := Changed(r, camera, key, value).value;
            var vendor := VendorKeyOf(camera, key).value;
            var back := Asked(r, camera, key, vendor, r.config[vendor]);
            && Asked(s, camera, key, vendor, r.config[vendor]) == back
            && (back.Ok? <==> AsI64(r.config[vendor]).Some? && GapHolds(r))
            && (back.Ok? ==> Alike(Apply(r, back.value), r) && Alike(Apply(s, back.value), r))
  {
    var current := Get(r, if key.TemperatureMin? then TempMin else TempMax);
    var encoded := ThresholdChange(r, camera, key, value);
    var body := ThresholdBody(r, key, encoded).value;
    assert Changed(r, camera, key, value) == Ok(WithThresholds(r, body));
    assert VendorKeyOf(camera, key) == Some(if key.TemperatureMin? then TempMin else TempMax);
    hide FieldOf, Change, Changed, Alike, WithThresholds, IntegerValue;
    SameBackBody(r, key, encoded, current);
    var back := ThresholdBody(r, key, current);
    hide ThresholdBody, GapHolds, AsI64;
    if back.Ok? {
      OldThresholdsBack(r, body, back.value);
    }
  }

  lemma SameBackBody(r: Response, key: Key, value: Json, current: Json)
    requires (key.TemperatureMin? || key.TemperatureMax?) && ThresholdBody(r, key, value).Ok?
    requires current == Get(r, if key.TemperatureMin? then TempMin else TempMax)
    ensures var body := ThresholdBody(r, key, value).value;
            var back := ThresholdBody(r, key, current);
            && I64(body.low) && I64(body.high)
            && ThresholdBody(WithThresholds(r, body), key, current) == back
            && (back.Ok? <==> AsI64(current).Some? && GapHolds(r))
            && (back.Ok? ==>
                  && Some(back.value.low) == IntegerValue(Get(r, TempMin))
                  && Some(back.value.high) == IntegerValue(Get(r, TempMax)))
  {
    var body := ThresholdBody(r, key, value).value;
    EchoIsInteger(r);
    assert I64(body.low) && I64(body.high);
    ThresholdsRead(r, body);
    WithThresholdsKeepsTemp(r, body);
    BackBodyIff(r, key, value, current);
    hide WithThresholds;
  }

  lemma OldThresholdsBack(r: Response, body: Body, back: Body)
    requires I64(body.low) && I64(body.high)
    requires Some(back.low) == IntegerValue(Get(r, TempMin)) && Some(back.high) == IntegerValue(Get(r, TempMax))
    ensures Alike(WithThresholds(r, back), r) && Alike(WithThresholds(WithThresholds(r, body), back), r)
  {
    EchoIsInteger(r);
    assert I64(back.low) && I64(back.high);
    hide IntegerValue, BoolValue, Get, WithThresholds;
    ThresholdsRead(r, back);
    ThresholdsRead(WithThresholds(r, body), back);
    ThresholdsRead(r, body);
    WithThresholdsKeepsTemp(r, body);
    WithThresholdsKeepsTemp(r, back);
    WithThresholdsKeepsTemp(WithThresholds(r, body), back);
  }

  lemma PlainBack(r: Response, camera: Camera, key: Key, value: Json)
    requires Changed(r, camera, key, value).Ok?
    requires !key.TemperatureMin? && !key.TemperatureMax? && !key.TemperatureAlerts?
    ensures var s := Changed(r, camera, key, value).value;
            var back := Entry(VendorKeyOf(camera, key).value, r.config[VendorKeyOf(camera, key).value]);
            Apply(r, back) == r && Apply(s, back) == r
  {
    hide FieldOf, Validated, Encode, VendorKeyOf;
    var vendor := VendorKeyOf(camera, key).value;
    var s := Changed(r, camera, key, value).value;
    assert s.config[vendor := r.config[vendor]] == r.config && r.config[vendor := r.config[vendor]] == r.config;
  }

  lemma AlertBack(r: Response, camera: Camera, value: Json)
    requires Changed(r, camera, TemperatureAlerts, value).Ok?
    ensures var s := Changed(r, camera, TemperatureAlerts, value).value;
            var on := BoolValue(r.config[TempAlarmEnable]);
            on.Some? && Alike(Apply(r, Alerts(on.value)), r) && Alike(Apply(s, Alerts(on.value)), r)
  {
    var now, next := AlertChange(r, camera, value);
    var s := Changed(r, camera, TemperatureAlerts, value).value;
    hide FieldOf, Change, Changed, IntegerValue, Apply, BoolValue;
    AlertsRead(r, next);
    AlertsRead(r, now);
    AlertsRead(s, now);
  }

  lemma AlertChange(r: Response, camera: Camera, value: Json) returns (now: bool, next: bool)
    requires Changed(r, camera, TemperatureAlerts, value).Ok?
    ensures TempAlarmEnable in r.config && BoolValue(r.config[TempAlarmEnable]) == Some(now)
    ensures Changed(r, camera, TemperatureAlerts, value) == Ok(Apply(r, Alerts(next)))
  {
    assert TempAlarmEnable in r.config && BoolValue(r.config[TempAlarmEnable]).Some? by { hide ThresholdField; }
    now := BoolValue(r.config[TempAlarmEnable]).value;
    hide FieldOf, Validated, Encode, BoolValue, Apply;
    next := Change(r, camera, TemperatureAlerts, value).value.on;
  }

  /** Concretely: the thresholds are the text "40" and 80, and 45 was to be written. */
  lemma TextThresholdStays(camera: Camera)
    requires camera.kind == Default
    ensures var r := Response(map[TempMin := Text("40"), TempMax := Integer(80)], Some(60));
            && FieldOf(r, camera, TemperatureMin).Some?
            && FieldOf(r, camera, TemperatureMin).value.value == Integer(40)
            && Changed(r, camera, TemperatureMin, Integer(45)).Ok?
            && Asked(Changed(r, camera, TemperatureMin, Integer(45)).value, camera, TemperatureMin, TempMin, Text("40"))
               == Err(Invalid)
  {
    var r := Response(map[TempMin := Text("40"), TempMax := Integer(80)], Some(60));
    assert Digits("40") == Some(40) by {
      assert "40"[..1] == "4" && "4"[..0] == "";
      assert Digits("4") == Some(4);
    }
    assert IntegerValue(Get(r, TempMin)) == Some(40) && IntegerValue(Get(r, TempMax)) == Some(80);
  }
}
