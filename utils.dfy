/** The settings part of the plugin's `Utils` class: the default options, the
    settings schema, the type-directed sanitiser, the read rule of `get_options`
    and, as a function of the stored blob, the snapshot `update_options` persists. */
module Utils {
  import opened Php

  /** One entry of the schema's `properties`. `default` is `Null` when the entry
      has none; `typ`, `enumValues` and `sanitizeCallback` are `None` when unset. */
  datatype SchemaEntry = SchemaEntry(
    typ: Option<string>,
    description: string,
    default: Value,
    enumValues: Option<seq<Value>>,
    sanitizeCallback: Option<string>
  )

  /** The array `get_settings_schema` returns: a JSON Schema (draft-04) object. */
  datatype SettingsSchema = SettingsSchema(
    schemaUri: string,
    typ: string,
    properties: map<string, SchemaEntry>
  )

  /** The six option keys the plugin declares. */
  const SettingKeys: set<string> := {"setting1", "setting2", "setting3", "setting4", "setting5", "deleteAll"}

  /** The values `setting5` may take. */
  const Setting5Choices: seq<Value> := [Str("option-1"), Str("option-2")]

  /** Whether `v` is a value of the entry's declared type (and, for a string with
      an enumeration, one of the listed values). Types other than `string` and
      `boolean` constrain nothing. */
  predicate Conforms(e: SchemaEntry, v: Value) {
    if e.typ == Some("string") then v.Str? && (e.enumValues.Some? ==> v in e.enumValues.value)
    else if e.typ == Some("boolean") then v.Bool?
    else true
  }

  /** Whether a string entry is cleaned by `sanitize_text_field`, named or by default. */
  predicate UsesTextField(e: SchemaEntry) {
    e.sanitizeCallback == None || e.sanitizeCallback == Some("sanitize_text_field")
  }

  /** The default the plugin declares for one of its six keys. */
  function DefaultOf(host: Host, key: string): Value
    requires key in SettingKeys
  {
    if key == "setting1" then Str(host.escHtmlTranslate("Default Setting 1"))
    else if key == "setting2" then Str(host.escHtmlTranslate("Default Setting 2"))
    else if key == "setting3" then Bool(false)
    else if key == "setting4" then Bool(true)
    else if key == "setting5" then Str("option-1")
    else Bool(false) // deleteAll
  }

  /** `get_default_options`; the `_get_default_options` filter is the identity.
      It declares exactly the six keys, none of them null. */
  function DefaultOptions(host: Host): (defaults: map<string, Value>)
    ensures defaults.Keys == SettingKeys
    ensures forall k :: k in defaults ==> defaults[k] != Null
  {
    map k | k in SettingKeys :: DefaultOf(host, k)
  }

  /** The schema entry the plugin declares for one of its six keys. */
  function PropertyOf(host: Host, key: string): SchemaEntry
    requires key in SettingKeys
  {
    var defaults := DefaultOptions(host);
    if key == "setting1" then
      SchemaEntry(Some("string"), host.translate("First text setting."), defaults[key], None, None)
    else if key == "setting2" then
      SchemaEntry(Some("string"), host.translate("Second text setting."), defaults[key], None, None)
    else if key == "setting3" then
      SchemaEntry(Some("boolean"), host.translate("First boolean setting."), defaults[key], None, None)
    else if key == "setting4" then
      SchemaEntry(Some("boolean"), host.translate("Second boolean setting."), defaults[key], None, None)
    else if key == "setting5" then
      SchemaEntry(Some("string"), host.translate("Option selection setting."), defaults[key],
                  Some(Setting5Choices), Some("sanitize_text_field"))
    else
      SchemaEntry(Some("boolean"), host.translate("Delete all settings on plugin deactivation."),
                  defaults[key], None, None)
  }

  /** `get_settings_schema`; the `_options_properties` filter is the identity. It
      declares exactly the default keys, every entry has a type, and its default
      is the matching default option. */
  function GetSettingsSchema(host: Host): (schema: SettingsSchema)
    ensures schema.schemaUri == "http://json-schema.org/draft-04/schema#" && schema.typ == "object"
    ensures schema.properties.Keys == SettingKeys
  {
    var properties := map k | k in SettingKeys :: PropertyOf(host, k);
    SettingsSchema("http://json-schema.org/draft-04/schema#", "object", properties)
  }

  /** `sanitize_option`: a `switch` over the entry's type that never fails.
      A string goes through the entry's callback and, when the entry lists an
      enumeration, is replaced by the default (or "") unless it is a member; a
      boolean is the parsed value, else the default, else false; any other type
      yields the default, else the input unchanged. */
  function SanitizeOption(host: Host, v: Value, e: SchemaEntry): (r: Value)
    ensures UsesTextField(e) && Conforms(e, e.default) ==> Conforms(e, r)
  {
    if e.typ == Some("string") then
      var callback := if e.sanitizeCallback.Some? then e.sanitizeCallback.value else "sanitize_text_field";
      var cleaned := CallUserFunc(host, callback, v);
      if e.enumValues.Some? && cleaned !in e.enumValues.value then Coalesce(e.default, Str(""))
      else cleaned
    else if e.typ == Some("boolean") then
      match host.validateBoolean(v)
      case Some(b) => Bool(b)
      case None => Coalesce(e.default, Bool(false))
    else
      Coalesce(e.default, v)
  }

  /** `get_option( BLANK_PLUGIN_NAME, [] )` after the `is_array` guard: the stored
      blob when it is an array, otherwise the empty array. */
  function StoredOptions(stored: Option<Value>): (options: map<string, Value>)
    ensures stored.Some? && stored.value.Arr? ==> options == stored.value.entries
    ensures !(stored.Some? && stored.value.Arr?) ==> options == map[]
  {
    match stored
    case Some(Arr(entries)) => entries
    case _ => map[]
  }

  /** The array `get_options()` returns when the plugin name is defined: the
      defaults overridden by the stored array. */
  function Snapshot(host: Host, stored: Option<Value>): (options: map<string, Value>)
    ensures options.Keys == SettingKeys + StoredOptions(stored).Keys
    ensures forall k :: k in StoredOptions(stored) ==> options[k] == StoredOptions(stored)[k]
  {
    ArrayMerge(DefaultOptions(host), StoredOptions(stored))
  }

  /** `get_options( $key )`. `defined` says whether `BLANK_PLUGIN_NAME` is defined;
      `stored` is the option row (`None` when there is none). */
  function GetOptions(defined: bool, stored: Option<Value>, host: Host, key: string): (r: Value)
    ensures defined && !IsEmpty(key) ==> r != Null
    ensures defined && IsEmpty(key) ==> r.Arr? && SettingKeys + StoredOptions(stored).Keys == r.entries.Keys
  {
    if !defined then
      if IsEmpty(key) then Arr(map[]) else Bool(false)
    else
      var options := StoredOptions(stored);
      var defaults := DefaultOptions(host);
      if !IsEmpty(key) then
        var fallback := if key in defaults then Coalesce(defaults[key], Bool(false)) else Bool(false);
        if key in options then Coalesce(options[key], fallback) else fallback
      else
        Arr(Snapshot(host, stored))
  }

  /** Whether `update_options` sanitises `key`: its schema entry has a type. */
  predicate HasType(schema: map<string, SchemaEntry>, key: string) {
    key in schema && schema[key].typ.Some?
  }

  /** What `update_options` stores for `key` given the raw value `v`: the sanitised
      value when the schema types the key, the raw value otherwise. */
  function WriteValue(host: Host, schema: map<string, SchemaEntry>, key: string, v: Value): (r: Value)
    ensures !HasType(schema, key) ==> r == v
    ensures HasType(schema, key) && UsesTextField(schema[key]) && Conforms(schema[key], schema[key].default) ==>
      Conforms(schema[key], r)
  {
    if HasType(schema, key) then SanitizeOption(host, v, schema[key]) else v
  }

  /** `$key_or_data` after the `foreach` of `update_options` has rewritten it. */
  function SanitizeEntries(host: Host, schema: map<string, SchemaEntry>, data: map<string, Value>): (processed: map<string, Value>)
    ensures processed.Keys == data.Keys
    ensures forall k :: k in processed && !HasType(schema, k) ==> processed[k] == data[k]
  {
    map k | k in data :: WriteValue(host, schema, k, data[k])
  }

  /** The array `update_options( $key_or_data, $val )` hands to `update_option`
      when the plugin name is defined: the current `get_options()` with a single
      key replaced, or overridden by a processed map, or unchanged. */
  function WrittenOptions(host: Host, stored: Option<Value>, keyOrData: Value, val: Value): (w: map<string, Value>)
    ensures SettingKeys + StoredOptions(stored).Keys <= w.Keys
    ensures keyOrData.Str? && !IsEmpty(keyOrData.s) ==> keyOrData.s in w
    ensures keyOrData.Arr? ==> keyOrData.entries.Keys <= w.Keys
  {
    var options := Snapshot(host, stored);
    var schema := GetSettingsSchema(host).properties;
    if keyOrData.Str? && !IsEmpty(keyOrData.s) then
      options[keyOrData.s := WriteValue(host, schema, keyOrData.s, val)]
    else if keyOrData.Arr? then
      ArrayMerge(options, SanitizeEntries(host, schema, keyOrData.entries))
    else
      options
  }
}
