/**
 * `WindowArranger.load_config` and the key lookups of `WindowArranger.__init__`:
 * the parsed configuration file is an input; opening and parsing it are not modelled.
 */
module Config {
  import opened Common
  import opened Text

  /** A parsed JSON value (numbers restricted to integers). */
  datatype Json =
    | JNull
    | JBool(b: bool)
    | JNumber(n: int)
    | JString(s: string)
    | JArray(items: seq<Json>)
    | JObject(fields: map<string, Json>)

  type ConfigMap = map<string, Json>

  const DEFAULT_HOTKEY: Json := JString("ctrl+alt+i")
  const DEFAULT_MONITOR_1_APPS: Json := JArray([JString("opera"), JString("RD Tabs")])
  const DEFAULT_MONITOR_2_APPS: Json := JArray([JString("*")])

  /** The built-in configuration used when no usable file exists. */
  const DEFAULT_CONFIG: ConfigMap := map[
    "hotkey" := DEFAULT_HOTKEY,
    "monitor_1_apps" := DEFAULT_MONITOR_1_APPS,
    "monitor_2_apps" := DEFAULT_MONITOR_2_APPS
  ]

  /** What reading `config.json` produced. */
  datatype ConfigSource =
    | Missing                // os.path.exists is false
    | LoadFailed             // opening or json.load raised
    | Parsed(document: Json) // json.load returned this value

  /**
   * The merged configuration `{**default_config, **config}`: every key the
   * user gives keeps the user's value, every other default key keeps the
   * default. A missing file, a load error, or a document that is not a JSON
   * object (the merge raises TypeError, caught by the same handler) yields
   * exactly the defaults.
   */
  function LoadConfig(source: ConfigSource): (r: ConfigMap)
    ensures DEFAULT_CONFIG.Keys <= r.Keys
    ensures source.Parsed? && source.document.JObject? ==>
      var user := source.document.fields;
      && r.Keys == DEFAULT_CONFIG.Keys + user.Keys
      && (forall k :: k in user ==> r[k] == user[k])
      && (forall k :: k in DEFAULT_CONFIG && k !in user ==> r[k] == DEFAULT_CONFIG[k])
    ensures !(source.Parsed? && source.document.JObject?) ==> r == DEFAULT_CONFIG
  {
    match source
    case Parsed(JObject(user)) => DEFAULT_CONFIG + user
    case _ => DEFAULT_CONFIG
  }

  /** Python's `dict.get(key, fallback)`. */
  function Get(config: ConfigMap, key: string, fallback: Json): (r: Json)
    ensures key in config ==> r == config[key]
    ensures key !in config ==> r == fallback
  {
    if key in config then config[key] else fallback
  }

  /**
   * The fallbacks that `__init__` passes to `config.get` are never used:
   * the merged configuration always holds the three default keys, each with
   * the user's value if the file gave one and the default otherwise.
   */
  lemma SettingLookup(source: ConfigSource, key: string, fallback: Json)
    requires key in DEFAULT_CONFIG
    ensures Get(LoadConfig(source), key, fallback) ==
      if source.Parsed? && source.document.JObject? && key in source.document.fields
      then source.document.fields[key]
      else DEFAULT_CONFIG[key]
  {
  }

  /**
   * The pattern list the classifier iterates over. A JSON array of strings
   * gives its strings; a single JSON string is iterated character by
   * character, and a JSON object by its keys, as a Python `for` loop over a
   * `str` or a `dict` does. The keys come in ascending order rather than file
   * order; the classification does not depend on the order of the patterns.
   * Every other value is `None`: a number, a boolean or null cannot be
   * iterated, and an array element that is not a string has no `lower()`.
   */
  function AppPatterns(v: Json): (r: Option<seq<string>>)
    ensures v.JArray? && (forall i :: 0 <= i < |v.items| ==> v.items[i].JString?) ==>
      r.Some? && |r.value| == |v.items| && forall i :: 0 <= i < |v.items| ==> r.value[i] == v.items[i].s
    ensures v.JString? ==> r.Some? && |r.value| == |v.s| && forall i :: 0 <= i < |v.s| ==> r.value[i] == [v.s[i]]
    ensures v.JObject? ==> r.Some? && |r.value| == |v.fields| && forall k :: k in r.value <==> k in v.fields
    ensures r.Some? ==> v.JString? || v.JArray? || v.JObject?
  {
    match v
    case JArray(items) =>
      if forall i :: 0 <= i < |items| ==> items[i].JString?
      then Some(seq(|items|, i requires 0 <= i < |items| && items[i].JString? => items[i].s))
      else None
    case JString(s) => Some(seq(|s|, i requires 0 <= i < |s| => [s[i]]))
    case JObject(fields) => Some(Ascending(fields.Keys))
    case _ => None
  }

  /** With no usable file the default monitor-1 patterns are "opera" and "RD Tabs". */
  lemma DefaultMonitorOnePatterns(source: ConfigSource)
    requires !(source.Parsed? && source.document.JObject? && "monitor_1_apps" in source.document.fields)
    ensures AppPatterns(Get(LoadConfig(source), "monitor_1_apps", DEFAULT_MONITOR_1_APPS)) == Some(["opera", "RD Tabs"])
  {
    SettingLookup(source, "monitor_1_apps", DEFAULT_MONITOR_1_APPS);
    assert DEFAULT_CONFIG["monitor_1_apps"] == DEFAULT_MONITOR_1_APPS;
    var r := AppPatterns(DEFAULT_MONITOR_1_APPS);
    assert r.Some? && |r.value| == 2;
    assert r.value == ["opera", "RD Tabs"];
  }
}
