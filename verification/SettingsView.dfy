/**
 * The engine that a backup restores through is the one that reads and writes the camera's document: field by field,
 * what `SettingsEngine` assumes of it is what `CameraSettings` does.
 */
module SettingsView {
  import opened Wrappers
  import opened CameraSettings
  import Restore = SettingsRestore
  import Engine = SettingsEngine

  /** A field value or a proposed one, as the Python side sees it. */
  function PyOf(value: Json): Restore.Py {
    match value
    case Bool(b) => Restore.Py.Bool(b)
    case Integer(n) => Restore.Py.Int(n)
    case Text(s) => Restore.Py.Text(s)
    case _ => Restore.Py.Null
  }

  predicate Plain(value: Json) {
    value.Null? || value.Bool? || value.Integer? || value.Text?
  }

  /** The options of a choice that do not depend on the current one. */
  function Support(r: Response, field: SettingField): seq<string> {
    if field.key.Quality? then
      var support := Get(r, VideoQualitySupport);
      if support.List? then Strings(support.items) else ["saver", "standard", "best"]
    else field.options
  }

  function RuleOf(r: Response, field: SettingField): Restore.Rule {
    match field.kind
    case Boolean => Restore.Switch
    case Whole =>
      if field.min.Some? && field.max.Some? && field.step.Some?
      then Restore.Range(field.min.value, field.max.value, field.step.value) else Restore.Range(0, 0, 0)
    case Select => Restore.Choice(Support(r, field))
    case Words => Restore.Rule.Words(if field.max.Some? then field.max.value else 0)
  }

  function ViewOf(r: Response, field: SettingField, name: string): Restore.Field {
    Restore.Field(name, PyOf(field.value), field.writable, RuleOf(r, field))
  }

  /** What every field of a document has. */
  lemma FieldShape(r: Response, camera: Camera, key: Key)
    requires FieldOf(r, camera, key).Some?
    ensures var f := FieldOf(r, camera, key).value;
            && f.key == key && f.kind == KindFor(key) && Plain(f.value)
            && (f.value.Null? ==> key.TemperatureMin? || key.TemperatureMax?)
            && (f.kind == Whole ==>
                  && f.min.Some? && f.max.Some? && f.step.Some?
                  && I64(f.min.value) && I64(f.max.value) && f.step.value > 0)
            && (f.kind == Select ==>
                  f.value.Text? && forall s :: s in f.options <==> s in Support(r, f) || s == f.value.s)
            && (f.kind == Words ==> f.max.Some?)
  {
    hide NightVisionValue, IrValue, BoolValue;
  }

  /** The engine's validation: the same values are accepted, and the same value is stored. */
  lemma ValidatedIsAdmissible(r: Response, camera: Camera, key: Key, value: Json, name: string)
    requires FieldOf(r, camera, key).Some? && Plain(value)
    ensures var f := FieldOf(r, camera, key).value;
            var view := ViewOf(r, f, name);
            && (Validated(f, value).Ok? <==> f.writable && Engine.Admissible(view, PyOf(value)))
            && (Validated(f, value).Ok? ==> PyOf(Validated(f, value).value) == Engine.Stored(view.rule, PyOf(value)))
  {
    FieldShape(r, camera, key);
    hide FieldOf, Support, Trim, Control;
  }

  /** A change is taken iff the value is valid for a writable field and, for a threshold, the gap check passes. */
  lemma ChangeTakenIff(r: Response, camera: Camera, key: Key, value: Json, name: string)
    requires FieldOf(r, camera, key).Some? && Plain(value)
    ensures var f := FieldOf(r, camera, key).value;
            var low, high := IntegerValue(Get(r, TempMin)), IntegerValue(Get(r, TempMax));
            Change(r, camera, key, value).Ok?
            <==> && f.writable && Engine.Admissible(ViewOf(r, f, name), PyOf(value))
                 && (key.TemperatureMin? || key.TemperatureMax? ==>
                       && low.Some? && high.Some?
                       && var gap := if key.TemperatureMin? then high.value - value.n else value.n - low.value;
                          I64(gap) && gap >= Restore.GAP)
  {
    ValidatedIsAdmissible(r, camera, key, value, name);
    FieldShape(r, camera, key);
    var f := FieldOf(r, camera, key).value;
    hide FieldOf, Engine.Admissible;
    if Validated(f, value).Ok? {
      WritableHasEntry(r, camera, key);
      ValidatedKeepsKind(f, value);
      hide Validated;
      if key.TemperatureMin? || key.TemperatureMax? {
        ThresholdAskedIff(r, camera, key, value);
      } else {
        ChoicesEncode(r, camera, key);
        OthersAsked(r, camera, key, f, Validated(f, value).value);
      }
    }
  }

  lemma ValidatedKeepsKind(f: SettingField, value: Json)
    requires Validated(f, value).Ok?
    ensures var desired := Validated(f, value).value;
            match f.kind
            case Boolean => desired.Bool?
            case Whole => desired == value && value.Integer? && I64(value.n)
            case Select => desired.Text? && desired.s in f.options
            case Words => desired.Text?
  {
    hide Trim, Control;
  }

  /** A writable field that shows a value has an entry of its own. */
  lemma WritableHasEntry(r: Response, camera: Camera, key: Key)
    requires FieldOf(r, camera, key).Some? && FieldOf(r, camera, key).value.writable
    ensures VendorKeyOf(camera, key).Some?
    ensures !FieldOf(r, camera, key).value.value.Null? ==> VendorKeyOf(camera, key).value in r.config
    ensures key.TemperatureMin? || key.TemperatureMax? ==> camera.kind == Default && r.temp.Some?
  {
    hide QualityOptions;
  }

  lemma ThresholdAskedIff(r: Response, camera: Camera, key: Key, value: Json)
    requires (key.TemperatureMin? || key.TemperatureMax?) && camera.kind == Default && r.temp.Some?
    requires value.Integer? && I64(value.n)
    ensures var low, high := IntegerValue(Get(r, TempMin)), IntegerValue(Get(r, TempMax));
            var vendor := VendorKeyOf(camera, key).value;
            && (vendor in r.config ==> Encode(key, r.config[vendor], value) == Ok(value))
            && (vendor in r.config && Asked(r, camera, key, vendor, value).Ok?
                <==> low.Some? && high.Some?
                     && var gap := if key.TemperatureMin? then high.value - value.n else value.n - low.value;
                        I64(gap) && gap >= Restore.GAP)
  {
  }

  /** The choices that are stored as numbers. */
  lemma ChoicesEncode(r: Response, camera: Camera, key: Key)
    requires FieldOf(r, camera, key).Some?
    ensures key.IrIntensity? ==> FieldOf(r, camera, key).value.options == ["low", "medium", "high"]
    ensures key.NightVision? ==> FieldOf(r, camera, key).value.options == ["off", "on", "auto"]
  {
    hide QualityOptions, ThresholdField, IntegerValue, BoolValue;
  }

  lemma OthersAsked(r: Response, camera: Camera, key: Key, f: SettingField, desired: Json)
    requires !key.TemperatureMin? && !key.TemperatureMax? && VendorKeyOf(camera, key).Some?
    requires VendorKeyOf(camera, key).value in r.config && f.kind == KindFor(key)
    requires key.IrIntensity? ==> f.options == ["low", "medium", "high"]
    requires key.NightVision? ==> f.options == ["off", "on", "auto"]
    requires match f.kind
             case Boolean => desired.Bool?
             case Whole => desired.Integer?
             case Select => desired.Text? && desired.s in f.options
             case Words => desired.Text?
    ensures var vendor := VendorKeyOf(camera, key).value;
            var encoded := Encode(key, r.config[vendor], desired);
            encoded.Ok? && Asked(r, camera, key, vendor, encoded.value).Ok?
  {
    hide VendorKeyOf, ThresholdBody;
  }

  /** A change that is taken changes the view of its own field in nothing but the value, and no other view. */
  lemma ChangeUpdatesView(r: Response, camera: Camera, key: Key, value: Json, other: Key, name: string)
    requires Changed(r, camera, key, value).Ok? && FieldOf(r, camera, other).Some?
    ensures var s := Changed(r, camera, key, value).value;
            var was := FieldOf(r, camera, other).value;
            && FieldOf(s, camera, other).Some?
            && ViewOf(s, FieldOf(s, camera, other).value, name)
               == if other == key then ViewOf(r, was, name).(value := PyOf(Validated(was, value).value))
                  else ViewOf(r, was, name)
  {
    var s := Changed(r, camera, key, value).value;
    SupportStays(r, camera, key, value);
    FieldShape(r, camera, other);
    if other == key {
      ChangeIsReadBack(r, camera, key, value);
      FieldShape(s, camera, key);
      RuleStays(r, s, camera, key);
      hide FieldOf, Changed, Validated;
    } else {
      ChangeLeavesOthers(r, camera, key, value, other);
      hide FieldOf, Changed, Validated, Get;
    }
  }

  /** Writing never touches the list of supported qualities or the greatest clip length. */
  lemma SupportStays(r: Response, camera: Camera, key: Key, value: Json)
    requires Changed(r, camera, key, value).Ok?
    ensures var s := Changed(r, camera, key, value).value;
            Get(s, VideoQualitySupport) == Get(r, VideoQualitySupport) && Get(s, ClipLengthMax) == Get(r, ClipLengthMax)
  {
    hide FieldOf, Validated, Encode, ThresholdBody, BoolValue;
  }

  lemma RuleStays(r: Response, s: Response, camera: Camera, key: Key)
    requires FieldOf(r, camera, key).Some? && FieldOf(s, camera, key).Some?
    requires Get(s, VideoQualitySupport) == Get(r, VideoQualitySupport)
    requires Get(s, ClipLengthMax) == Get(r, ClipLengthMax)
    ensures RuleOf(s, FieldOf(s, camera, key).value) == RuleOf(r, FieldOf(r, camera, key).value)
  {
    FieldShape(r, camera, key);
    FieldShape(s, camera, key);
    if KindFor(key) == Whole || KindFor(key) == Words {
      LimitsStay(r, s, camera, key);
      hide FieldOf;
    } else if KindFor(key) == Select && !key.Quality? {
      OptionsStay(r, s, camera, key);
      hide FieldOf;
    } else {
      hide FieldOf;
    }
  }

  lemma LimitsStay(r: Response, s: Response, camera: Camera, key: Key)
    requires FieldOf(r, camera, key).Some? && FieldOf(s, camera, key).Some?
    requires KindFor(key) == Whole || KindFor(key) == Words
    requires Get(s, ClipLengthMax) == Get(r, ClipLengthMax)
    ensures var was, now := FieldOf(r, camera, key).value, FieldOf(s, camera, key).value;
            now.min == was.min && now.max == was.max && now.step == was.step
  {
    hide NightVisionValue, IrValue, BoolValue, QualityOptions, IntegerValue;
  }

  lemma OptionsStay(r: Response, s: Response, camera: Camera, key: Key)
    requires FieldOf(r, camera, key).Some? && FieldOf(s, camera, key).Some? && KindFor(key) == Select && !key.Quality?
    ensures FieldOf(s, camera, key).value.options == FieldOf(r, camera, key).value.options
  {
    hide NightVisionValue, IrValue, BoolValue, QualityOptions, IntegerValue, ThresholdField;
  }
}
