/**
 * Settings: the defaults and the merge `load_config` performs
 * (dictate.py, `DEFAULT_CONFIG`, `load_config`). Reading and parsing the
 * JSON file is an input: its outcome is given as a `ConfigFile`.
 */
module Config {

  /** A parsed JSON value (numbers restricted to integers). */
  datatype Json =
    | JNull
    | JBool(b: bool)
    | JNum(n: int)
    | JStr(s: string)
    | JArr(items: seq<Json>)
    | JObj(fields: map<string, Json>)

  /** What reading the config file produced. */
  datatype ConfigFile =
    | Missing              // `os.path.exists` is false
    | Unreadable           // open or `json.load` raised
    | Parsed(doc: Json)    // `json.load` returned this value

  const DefaultConfig: map<string, Json> := map[
    "hotkey" := JStr("alt"),
    "model" := JStr("tiny"),
    "microphone" := JNull,
    "language" := JStr("en")
  ]

  /** `load_config()`: a JSON object is merged over the defaults
      (`{**DEFAULT_CONFIG, **cfg}`); any other outcome, including a document
      that is not an object (the merge raises and is caught), gives the defaults. */
  function LoadConfig(file: ConfigFile): (cfg: map<string, Json>)
    ensures DefaultConfig.Keys <= cfg.Keys
    ensures file.Parsed? && file.doc.JObj? ==>
      && cfg.Keys == DefaultConfig.Keys + file.doc.fields.Keys
      && (forall k | k in file.doc.fields :: cfg[k] == file.doc.fields[k])
      && (forall k | k in DefaultConfig && k !in file.doc.fields :: cfg[k] == DefaultConfig[k])
    ensures !(file.Parsed? && file.doc.JObj?) ==> cfg == DefaultConfig
  {
    match file
    case Parsed(JObj(fields)) => DefaultConfig + fields
    case _ => DefaultConfig
  }

  /** Saving a loaded configuration and loading it again gives it back
      (`save_config` writes the whole map as one JSON object). */
  lemma SaveLoadRoundTrip(file: ConfigFile)
    ensures LoadConfig(Parsed(JObj(LoadConfig(file)))) == LoadConfig(file)
  {
    var cfg := LoadConfig(file);
    assert DefaultConfig + cfg == cfg;
  }
}
