/** The persistence side of the settings store: the option row behind
    `get_option( BLANK_PLUGIN_NAME )` as a field, `get_options` reading it, and
    `update_options` rewriting it by read-modify-write. */
module OptionsStore {
  import opened Php
  import opened Utils
  import opened UtilsProperties

  /** The `foreach` of `update_options` over a map write: each entry whose key the
      schema types is replaced by its sanitised value, the others are kept raw. */
  method SanitizeEach(host: Host, schema: map<string, SchemaEntry>, data: map<string, Value>)
    returns (processed: map<string, Value>)
    ensures processed == SanitizeEntries(host, schema, data)
  {
    processed := data;
    var pending := data.Keys;
    while pending != {}
      invariant pending <= data.Keys
      invariant processed.Keys == data.Keys
      invariant forall k :: k in pending ==> processed[k] == data[k]
      invariant forall k :: k in data && k !in pending ==> processed[k] == WriteValue(host, schema, k, data[k])
      decreases pending
    {
      var key :| key in pending;
      if HasType(schema, key) {
        processed := processed[key := SanitizeOption(host, data[key], schema[key])];
      }
      pending := pending - {key};
    }
    assert processed.Keys == SanitizeEntries(host, schema, data).Keys;
  }

  /** The read-modify part of `update_options( $key_or_data, $val )` once the
      plugin name is known to be defined: load the full read of `stored`, then
      replace a single key or merge a map whose entries are sanitised one by one. */
  method BuildOptions(host: Host, stored: Option<Value>, keyOrData: Value, val: Value)
    returns (options: map<string, Value>)
    ensures options == WrittenOptions(host, stored, keyOrData, val)
  {
    options := GetOptions(true, stored, host, "").entries;
    var schema := GetSettingsSchema(host).properties;
    if keyOrData.Str? && !IsEmpty(keyOrData.s) {
      var v := val;
      if HasType(schema, keyOrData.s) {
        v := SanitizeOption(host, val, schema[keyOrData.s]);
      }
      options := options[keyOrData.s := v];
      WrittenSingleKey(host, stored, keyOrData.s, val);
    } else if keyOrData.Arr? {
      var processed := SanitizeEach(host, schema, keyOrData.entries);
      options := ArrayMerge(options, processed);
      WrittenMap(host, stored, keyOrData.entries, val);
    } else {
      DegenerateWrite(host, stored, keyOrData, val);
    }
  }

  class Store {
    /** The host functions the store calls. */
    const host: Host
    /** Whether the constant `BLANK_PLUGIN_NAME` is defined. */
    const nameDefined: bool
    /** The option row named `BLANK_PLUGIN_NAME`; `None` while it does not exist. */
    var blob: Option<Value>
    /** Every value handed to `update_option` for that row, oldest first. */
    ghost var log: seq<Value>

    constructor (host: Host, nameDefined: bool, blob: Option<Value>)
      ensures this.host == host && this.nameDefined == nameDefined
      ensures this.blob == blob && log == []
    {
      this.host := host;
      this.nameDefined := nameDefined;
      this.blob := blob;
      log := [];
    }

    /** `get_options( $key )` against the current row. With the plugin name
        defined, a key never reads as null and the full read holds every declared
        key. */
    function Read(key: string): (r: Value)
      reads this
      ensures nameDefined && !IsEmpty(key) ==> r != Null
      ensures nameDefined && IsEmpty(key) ==> r.Arr? && SettingKeys <= r.entries.Keys
    {
      GetOptions(nameDefined, blob, host, key)
    }

    /** `update_options( $key_or_data, $val )`. Without the plugin name nothing is
        written. Otherwise the array built from the current row is persisted in
        one write. */
    method UpdateOptions(keyOrData: Value, val: Value)
      modifies this
      ensures !nameDefined ==> blob == old(blob) && log == old(log)
      ensures nameDefined ==> blob == Some(Arr(WrittenOptions(host, old(blob), keyOrData, val)))
      ensures nameDefined ==> log == old(log) + [blob.value]
      ensures nameDefined && SchemaConforming(host, StoredOptions(old(blob))) ==>
        SchemaConforming(host, StoredOptions(blob))
    {
      if !nameDefined {
        return;
      }
      var options := BuildOptions(host, blob, keyOrData, val);
      if SchemaConforming(host, StoredOptions(blob)) {
        WritePreservesConformance(host, blob, keyOrData, val);
      }
      blob := Some(Arr(options));
      log := log + [Arr(options)];
    }
  }
}
