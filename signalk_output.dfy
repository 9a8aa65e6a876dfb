/**
 * The Signal K output transforms `SKOutput<T>`, `SKOutput<Attitude>`
 * (`SKOutputAttitude`) and `SKOutput<MagCal>` (`SKOutputMagCal`): each keeps
 * the last value it received, a configurable Signal K path and an optional
 * metadata reference, and renders `{"path": ..., "value": ...}` with JSON
 * nulls standing for readings that are not valid.
 */
module SignalKOutput {
  import opened Json
  import opened SignalKOrientation
  import opened Wrappers

  // ---------------------------------------------------------------------------
  // The document envelope shared by every output
  // ---------------------------------------------------------------------------

  /** `doc` is the Signal K update `{"path": path, "value": value}` and nothing more. */
  predicate IsEnvelope(doc: Json, path: string, value: Json) {
    doc.JObj? && doc.fields.Keys == {"path", "value"} &&
    doc.fields["path"] == JStr(path) && doc.fields["value"] == value
  }

  function Envelope(path: string, value: Json): (doc: Json)
    ensures IsEnvelope(doc, path, value)
  {
    JObj(map["path" := JStr(path), "value" := value])
  }

  /** The path and the value can be read back from an envelope. */
  function PathOf(doc: Json): Option<string> {
    if doc.JObj? && "path" in doc.fields && doc.fields["path"].JStr? then
      Some(doc.fields["path"].s)
    else None
  }

  function ValueOf(doc: Json): Option<Json> {
    if doc.JObj? && "value" in doc.fields then Some(doc.fields["value"]) else None
  }

  lemma EnvelopeRoundTrip(path: string, value: Json)
    ensures PathOf(Envelope(path, value)) == Some(path)
    ensures ValueOf(Envelope(path, value)) == Some(value)
  {
  }

  /** The generic `as_signalk`: the stored output as ArduinoJson converts it. */
  function GenericDocument<T>(path: string, output: T, convert: T -> Json): (doc: Json)
    ensures IsEnvelope(doc, path, convert(output))
  {
    Envelope(path, convert(output))
  }

  // ---------------------------------------------------------------------------
  // Attitude
  // ---------------------------------------------------------------------------

  const AttitudeKeys: set<string> := {"yaw", "pitch", "roll"}

  /** The `value` object of an Attitude: the angles, or a null for each when invalid. */
  function AttitudeValue(a: Attitude): (v: Json)
    ensures v.JObj? && v.fields.Keys == AttitudeKeys
  {
    if a.isDataValid then
      JObj(map["yaw" := JNum(a.yaw), "pitch" := JNum(a.pitch), "roll" := JNum(a.roll)])
    else
      JObj(map["yaw" := JNull, "pitch" := JNull, "roll" := JNull])
  }

  function AttitudeDocument(path: string, a: Attitude): (doc: Json)
    ensures IsEnvelope(doc, path, AttitudeValue(a))
  {
    Envelope(path, AttitudeValue(a))
  }

  lemma AttitudeValidCopiesAngles(a: Attitude)
    requires a.isDataValid
    ensures AttitudeValue(a).fields["yaw"] == JNum(a.yaw)
    ensures AttitudeValue(a).fields["pitch"] == JNum(a.pitch)
    ensures AttitudeValue(a).fields["roll"] == JNum(a.roll)
  {
  }

  /** Invalid: every key is present and each is a JSON null, not a number or a string. */
  lemma AttitudeInvalidAllNull(a: Attitude)
    requires !a.isDataValid
    ensures forall k :: k in AttitudeKeys ==> AttitudeValue(a).fields[k] == JNull
  {
  }

  lemma AttitudeKeysIndependentOfValidity(a: Attitude, b: Attitude)
    ensures AttitudeValue(a).fields.Keys == AttitudeValue(b).fields.Keys == AttitudeKeys
  {
  }

  /** The readings an Attitude document tells apart: validity, and the angles when valid. */
  predicate SameAttitudeReading(a: Attitude, b: Attitude) {
    a.isDataValid == b.isDataValid &&
    (a.isDataValid ==> a.yaw == b.yaw && a.pitch == b.pitch && a.roll == b.roll)
  }

  /** Two Attitudes render the same `value` exactly when they are the same reading. */
  lemma AttitudeValueFaithful(a: Attitude, b: Attitude)
    ensures AttitudeValue(a) == AttitudeValue(b) <==> SameAttitudeReading(a, b)
  {
  }

  // ---------------------------------------------------------------------------
  // MagCal
  // ---------------------------------------------------------------------------

  const MagCalKeys: set<string> := {"incl", "ferr", "ferrt", "bmag", "bmagt", "noise", "solver"}

  /** Members no reading can invalidate: they come from the stored calibration. */
  const MagCalStoredKeys: set<string> := {"ferr", "bmag", "solver"}

  /**
   * The `value` object of a MagCal. When invalid, the members that depend on
   * current readings are nulls and the stored-calibration members are kept.
   */
  function MagCalValue(m: MagCal): (v: Json)
    ensures v.JObj? && v.fields.Keys == MagCalKeys
  {
    if m.isDataValid then
      JObj(map[
        "incl" := JNum(m.magneticInclination),
        "ferr" := JNum(m.calFitError),
        "ferrt" := JNum(m.calFitErrorTrial),
        "bmag" := JNum(m.magFieldMagnitude),
        "bmagt" := JNum(m.magFieldMagnitudeTrial),
        "noise" := JNum(m.magNoiseCovariance),
        "solver" := JInt(m.magSolver)])
    else
      JObj(map[
        "incl" := JNull,
        "ferr" := JNum(m.calFitError),
        "ferrt" := JNull,
        "bmag" := JNum(m.magFieldMagnitude),
        "bmagt" := JNull,
        "noise" := JNull,
        "solver" := JInt(m.magSolver)])
  }

  function MagCalDocument(path: string, m: MagCal): (doc: Json)
    ensures IsEnvelope(doc, path, MagCalValue(m))
  {
    Envelope(path, MagCalValue(m))
  }

  lemma MagCalValidCopiesFields(m: MagCal)
    requires m.isDataValid
    ensures MagCalValue(m).fields["incl"] == JNum(m.magneticInclination)
    ensures MagCalValue(m).fields["ferr"] == JNum(m.calFitError)
    ensures MagCalValue(m).fields["ferrt"] == JNum(m.calFitErrorTrial)
    ensures MagCalValue(m).fields["bmag"] == JNum(m.magFieldMagnitude)
    ensures MagCalValue(m).fields["bmagt"] == JNum(m.magFieldMagnitudeTrial)
    ensures MagCalValue(m).fields["noise"] == JNum(m.magNoiseCovariance)
    ensures MagCalValue(m).fields["solver"] == JInt(m.magSolver)
  {
  }

  /** Invalid: exactly the reading-dependent members are null; the stored ones are kept. */
  lemma MagCalInvalidNullsReadings(m: MagCal)
    requires !m.isDataValid
    ensures forall k :: k in MagCalKeys ==>
      (MagCalValue(m).fields[k] == JNull <==> k !in MagCalStoredKeys)
    ensures MagCalValue(m).fields["ferr"] == JNum(m.calFitError)
    ensures MagCalValue(m).fields["bmag"] == JNum(m.magFieldMagnitude)
    ensures MagCalValue(m).fields["solver"] == JInt(m.magSolver)
  {
  }

  /** The stored-calibration members do not depend on validity at all. */
  lemma MagCalStoredIndependentOfValidity(m: MagCal)
    ensures var flipped := m.(isDataValid := !m.isDataValid);
      forall k :: k in MagCalStoredKeys ==> MagCalValue(m).fields[k] == MagCalValue(flipped).fields[k]
  {
  }

  lemma MagCalKeysIndependentOfValidity(m: MagCal, n: MagCal)
    ensures MagCalValue(m).fields.Keys == MagCalValue(n).fields.Keys == MagCalKeys
  {
  }

  /** What a MagCal document tells apart: validity, the stored fields, and the rest when valid. */
  predicate SameMagCalReport(m: MagCal, n: MagCal) {
    m.isDataValid == n.isDataValid &&
    m.calFitError == n.calFitError &&
    m.magFieldMagnitude == n.magFieldMagnitude &&
    m.magSolver == n.magSolver &&
    (m.isDataValid ==>
      m.magneticInclination == n.magneticInclination &&
      m.calFitErrorTrial == n.calFitErrorTrial &&
      m.magFieldMagnitudeTrial == n.magFieldMagnitudeTrial &&
      m.magNoiseCovariance == n.magNoiseCovariance)
  }

  /** Two MagCals render the same `value` exactly when they are the same report. */
  lemma MagCalValueFaithful(m: MagCal, n: MagCal)
    ensures MagCalValue(m) == MagCalValue(n) <==> SameMagCalReport(m, n)
  {
  }

  // ---------------------------------------------------------------------------
  // Configuration: the "sk_path" key, shared by all three outputs
  // ---------------------------------------------------------------------------

  /** `root` with "sk_path" set to `path` and every other key kept. */
  predicate WritesPath(root: JsonObject, r: JsonObject, path: string) {
    r.Keys == root.Keys + {"sk_path"} && r["sk_path"] == JStr(path) &&
    forall k :: k in root && k != "sk_path" ==> r[k] == root[k]
  }

  /** `get_configuration`: writes the current path under "sk_path". */
  function WriteConfiguration(path: string, root: JsonObject): (r: JsonObject)
    ensures WritesPath(root, r, path)
  {
    root["sk_path" := JStr(path)]
  }

  /** Outcome of `set_configuration`: its boolean result and the path afterwards. */
  datatype ConfigOutcome = ConfigOutcome(accepted: bool, path: string)

  /** `set_configuration`: a config without "sk_path" is refused and the path kept. */
  function ApplyConfiguration(current: string, config: JsonObject, other: Json -> string): (r: ConfigOutcome)
    ensures r.accepted <==> "sk_path" in config
    ensures !r.accepted ==> r.path == current
    ensures r.accepted ==> r.path == AsString(config["sk_path"], other)
  {
    if "sk_path" !in config then ConfigOutcome(false, current)
    else ConfigOutcome(true, AsString(config["sk_path"], other))
  }

  /** A configuration written by `get_configuration` is accepted back with the same path. */
  lemma ConfigurationRoundTrip(path: string, current: string, root: JsonObject, other: Json -> string)
    ensures ApplyConfiguration(current, WriteConfiguration(path, root), other) == ConfigOutcome(true, path)
  {
  }

  /** Applying a configuration twice leaves the same path as applying it once. */
  lemma ApplyConfigurationIdempotent(current: string, config: JsonObject, other: Json -> string)
    ensures var once := ApplyConfiguration(current, config, other);
      ApplyConfiguration(once.path, config, other) == once
  {
  }

  // ---------------------------------------------------------------------------
  // The output transforms
  // ---------------------------------------------------------------------------

  /** The framework's metadata object; only its reference is stored and handed back. */
  class SKMetadata {
  }

  /** `SKOutput<T>`: the generic output transform. */
  class SKOutput<T> {
    var skPath: string
    var output: T
    var meta: SKMetadata?

    constructor (skPath: string, meta: SKMetadata?, initial: T)
      ensures this.skPath == skPath && this.meta == meta && output == initial
    {
      this.skPath := skPath;
      this.meta := meta;
      output := initial;
    }

    /** `set_input` emits the new value, which becomes the stored output. */
    method SetInput(newValue: T)
      modifies this`output
      ensures output == newValue
    {
      output := newValue;
    }

    function AsSignalK(convert: T -> Json): (doc: Json)
      reads this
      ensures IsEnvelope(doc, skPath, convert(output))
    {
      GenericDocument(skPath, output, convert)
    }

    function GetConfiguration(root: JsonObject): (r: JsonObject)
      reads this
      ensures WritesPath(root, r, skPath)
    {
      WriteConfiguration(skPath, root)
    }

    method SetConfiguration(config: JsonObject, other: Json -> string) returns (accepted: bool)
      modifies this`skPath
      ensures ConfigOutcome(accepted, skPath) == ApplyConfiguration(old(skPath), config, other)
    {
      var r := ApplyConfiguration(skPath, config, other);
      accepted, skPath := r.accepted, r.path;
    }

    method SetMetadata(m: SKMetadata?)
      modifies this`meta
      ensures meta == m
    {
      meta := m;
    }

    method GetMetadata() returns (m: SKMetadata?)
      ensures m == meta
    {
      m := meta;
    }
  }

  /** `SKOutput<Attitude>`, also named `SKOutputAttitude`. */
  class SKOutputAttitude {
    var skPath: string
    var output: Attitude
    var meta: SKMetadata?

    constructor (skPath: string, meta: SKMetadata?, initial: Attitude)
      ensures this.skPath == skPath && this.meta == meta && output == initial
    {
      this.skPath := skPath;
      this.meta := meta;
      output := initial;
    }

    method SetInput(newValue: Attitude)
      modifies this`output
      ensures output == newValue
    {
      output := newValue;
    }

    function AsSignalK(): (doc: Json)
      reads this
      ensures IsEnvelope(doc, skPath, AttitudeValue(output))
    {
      AttitudeDocument(skPath, output)
    }

    function GetConfiguration(root: JsonObject): (r: JsonObject)
      reads this
      ensures WritesPath(root, r, skPath)
    {
      WriteConfiguration(skPath, root)
    }

    method SetConfiguration(config: JsonObject, other: Json -> string) returns (accepted: bool)
      modifies this`skPath
      ensures ConfigOutcome(accepted, skPath) == ApplyConfiguration(old(skPath), config, other)
    {
      var r := ApplyConfiguration(skPath, config, other);
      accepted, skPath := r.accepted, r.path;
    }

    method SetMetadata(m: SKMetadata?)
      modifies this`meta
      ensures meta == m
    {
      meta := m;
    }

    method GetMetadata() returns (m: SKMetadata?)
      ensures m == meta
    {
      m := meta;
    }
  }

  /** `SKOutput<MagCal>`, also named `SKOutputMagCal`. */
  class SKOutputMagCal {
    var skPath: string
    var output: MagCal
    var meta: SKMetadata?

    constructor (skPath: string, meta: SKMetadata?, initial: MagCal)
      ensures this.skPath == skPath && this.meta == meta && output == initial
    {
      this.skPath := skPath;
      this.meta := meta;
      output := initial;
    }

    method SetInput(newValue: MagCal)
      modifies this`output
      ensures output == newValue
    {
      output := newValue;
    }

    function AsSignalK(): (doc: Json)
      reads this
      ensures IsEnvelope(doc, skPath, MagCalValue(output))
    {
      MagCalDocument(skPath, output)
    }

    function GetConfiguration(root: JsonObject): (r: JsonObject)
      reads this
      ensures WritesPath(root, r, skPath)
    {
      WriteConfiguration(skPath, root)
    }

    method SetConfiguration(config: JsonObject, other: Json -> string) returns (accepted: bool)
      modifies this`skPath
      ensures ConfigOutcome(accepted, skPath) == ApplyConfiguration(old(skPath), config, other)
    {
      var r := ApplyConfiguration(skPath, config, other);
      accepted, skPath := r.accepted, r.path;
    }

    method SetMetadata(m: SKMetadata?)
      modifies this`meta
      ensures meta == m
    {
      meta := m;
    }

    method GetMetadata() returns (m: SKMetadata?)
      ensures m == meta
    {
      m := meta;
    }
  }
}
