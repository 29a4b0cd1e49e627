/** The vision settings file (src/vision/vision_config.py): loading fills in
    missing defaults, any failure falls back to the defaults with vision
    enabled, and an update only touches a key the loaded settings already hold. */
module VisionConfig {
  import opened Wrappers
  import opened JsonValue

  /** The keys of `DEFAULT_CONFIG`, in the order `load_config` visits them. */
  const DefaultKeys: seq<string> := ["enabled", "camera_id", "api_key", "process_interval", "auto_capture"]

  /** `DEFAULT_CONFIG`. */
  const Default: map<string, Json> :=
    map["enabled" := JBool(false), "camera_id" := JInt(0), "api_key" := JStr(""),
        "process_interval" := JInt(5), "auto_capture" := JBool(false)]

  /** The defaults with vision switched on: what a first start writes and
      what every failure returns. */
  const Fallback: map<string, Json> := Default["enabled" := JBool(true)]

  lemma DefaultKeysAreDefault()
    ensures forall k :: k in Default <==> k in DefaultKeys
    ensures Fallback.Keys == Default.Keys
  {
  }

  /** The state of `vision_config.json` at a load: absent, not readable as
      JSON, or decoded. */
  datatype Stored = Missing | Unreadable | Loaded(value: Json)

  /** The fill-in loop of `load_config` over `keys`: a key that `in` does not
      find is stored with its default, which only a dict accepts; `in` itself
      raises on a number, a bool or null. `None` stands for the raise. */
  function FillDefaults(config: Json, keys: seq<string>): (r: Option<Json>)
    requires forall i :: 0 <= i < |keys| ==> keys[i] in Default
    ensures config.JObj? ==> r.Some? && r.value.JObj?
    ensures config.JObj? ==> r.value.fields.Keys == config.fields.Keys + set i | 0 <= i < |keys| :: keys[i]
    ensures config.JObj? ==>
              forall k :: k in r.value.fields ==>
                r.value.fields[k] == if k in config.fields then config.fields[k] else Default[k]
    ensures !config.JObj? ==> (r == Some(config) <==> forall i :: 0 <= i < |keys| ==> In(keys[i], config) == Some(true))
    ensures !config.JObj? && r != Some(config) ==> r == None
    decreases |keys|
  {
    if |keys| == 0 then Some(config)
    else
      match In(keys[0], config)
      case None => None
      case Some(found) =>
        if found then FillDefaults(config, keys[1..])
        else if config.JObj? then FillDefaults(JObj(config.fields[keys[0] := Default[keys[0]]]), keys[1..])
        else None
  }

  /** `load_config`. */
  function LoadVisionConfig(stored: Stored): (r: Json)
    // a missing or unreadable file, or a value the loop raises on, gives the enabled defaults
    ensures !stored.Loaded? ==> r == JObj(Fallback)
    // a stored object keeps its own entries and gains the defaults it lacks
    ensures stored.Loaded? && stored.value.JObj? ==>
              r.JObj? && r.fields.Keys == stored.value.fields.Keys + Default.Keys
              && forall k :: k in r.fields ==>
                   r.fields[k] == if k in stored.value.fields then stored.value.fields[k] else Default[k]
    // a list or string that already contains every key is returned as it is
    ensures stored.Loaded? && !stored.value.JObj? ==>
              r == if forall k :: k in Default ==> In(k, stored.value) == Some(true) then stored.value else JObj(Fallback)
  {
    DefaultKeysAreDefault();
    match stored
    case Loaded(config) => FillDefaults(config, DefaultKeys).GetOr(JObj(Fallback))
    case _ => JObj(Fallback)
  }

  /** Whatever the file holds, every default key is `in` the loaded settings. */
  lemma LoadedHoldsDefaults(stored: Stored, k: string)
    requires k in Default
    ensures In(k, LoadVisionConfig(stored)) == Some(true)
  {
    DefaultKeysAreDefault();
  }

  /** A first start enables vision, but a stored object without `enabled`
      is filled in with vision disabled. */
  lemma EnabledDependsOnOrigin()
    ensures LoadVisionConfig(Missing).fields["enabled"] == JBool(true)
    ensures LoadVisionConfig(Loaded(JObj(map[]))).fields["enabled"] == JBool(false)
  {
  }

  /** The outcome of `update_config(key, value)`. */
  datatype Update =
    | Rejected                                   // the key is not in the loaded settings: False
    | Written(config: Json, saved: bool)         // stored; the result is what saving answered
    | Raised                                     // item assignment on a list or string raises to the caller

  /** `update_config(key, value)` on top of a fresh `load_config`. */
  function UpdateVisionConfig(stored: Stored, key: string, value: Json, saveOk: bool): (r: Update)
    ensures var c := LoadVisionConfig(stored);
            && (r.Rejected? <==> In(key, c) == Some(false))
            && (r.Written? <==> c.JObj? && key in c.fields)
            && (r.Written? ==> r.config == JObj(c.fields[key := value]) && r.saved == saveOk)
  {
    var c := LoadVisionConfig(stored);
    match In(key, c)
    case Some(found) =>
      if !found then Rejected
      else if c.JObj? then Written(JObj(c.fields[key := value]), saveOk)
      else Raised
    case None => Raised
  }

  /** Updating a default key of stored object settings always goes through,
      changes only that key, and loading what was saved gives it back. */
  lemma UpdateDefaultKeyRoundTrip(stored: Stored, key: string, value: Json, saveOk: bool)
    requires key in Default
    requires !stored.Loaded? || stored.value.JObj?
    ensures var r := UpdateVisionConfig(stored, key, value, saveOk);
            && r.Written? && r.saved == saveOk
            && r.config.fields[key] == value
            && (forall k :: k in r.config.fields && k != key ==> r.config.fields[k] == LoadVisionConfig(stored).fields[k])
            && LoadVisionConfig(Loaded(r.config)) == r.config
  {
    var c := LoadVisionConfig(stored);
    var r := UpdateVisionConfig(stored, key, value, saveOk);
    assert Default.Keys <= r.config.fields.Keys;
    var again := LoadVisionConfig(Loaded(r.config));
    assert again.fields.Keys == r.config.fields.Keys;
    assert again == r.config;
  }
}
