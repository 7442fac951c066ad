/** What the settings store promises its callers, stated over the functions of
    `Utils`: the shape of the defaults and the schema, the sanitiser's fallback
    rules, the read rule, and the effect of a write on the persisted snapshot and
    on later reads. */
module UtilsProperties {
  import opened Php
  import opened Utils

  /** The schema's properties, as `update_options` reads them. */
  function Schema(host: Host): map<string, SchemaEntry> {
    GetSettingsSchema(host).properties
  }

  /** The callback `sanitize_option` applies to a string entry. */
  function CallbackOf(e: SchemaEntry): string {
    if e.sanitizeCallback.Some? then e.sanitizeCallback.value else "sanitize_text_field"
  }

  /** Every declared key present in `m` holds a valid value of its schema entry. */
  ghost predicate SchemaConforming(host: Host, m: map<string, Value>) {
    forall k :: k in m && k in Schema(host) ==> Conforms(Schema(host)[k], m[k])
  }

  // ---------------------------------------------------- defaults and schema

  /** No declared key is empty in the sense of PHP's `empty()`. */
  lemma DeclaredKeysNonEmpty(key: string)
    requires key in SettingKeys
    ensures !IsEmpty(key)
  {
    assert |key| > 1;
  }

  /** The entry declared for one key has a type and the key's default option as
      its default. */
  lemma PropertyDeclared(host: Host, key: string)
    requires key in SettingKeys
    ensures PropertyOf(host, key).typ.Some?
    ensures PropertyOf(host, key).default == DefaultOptions(host)[key]
  {
  }

  /** The schema agrees with the defaults: it declares the same keys, every entry
      has a type, and each entry's default is the default option. */
  lemma {:induction false} SchemaMatchesDefaults(host: Host)
    ensures Schema(host).Keys == DefaultOptions(host).Keys
    ensures forall k :: k in Schema(host) ==>
      Schema(host)[k].typ.Some? && Schema(host)[k].default == DefaultOptions(host)[k]
  {
    forall k | k in Schema(host)
      ensures Schema(host)[k].typ.Some? && Schema(host)[k].default == DefaultOptions(host)[k]
    {
      PropertyDeclared(host, k);
    }
  }

  /** `setting5` is a string choosing between `option-1` and `option-2`, and its
      default `option-1` is one of them. */
  lemma {:induction false} Setting5Entry(host: Host)
    ensures "setting5" in Schema(host)
    ensures Schema(host)["setting5"].typ == Some("string")
    ensures Schema(host)["setting5"].enumValues == Some(Setting5Choices)
    ensures CallbackOf(Schema(host)["setting5"]) == "sanitize_text_field"
    ensures Schema(host)["setting5"].default == Str("option-1") && Str("option-1") in Setting5Choices
  {
    assert Schema(host)["setting5"] == PropertyOf(host, "setting5");
  }

  /** The entry declared for one key is cleaned by `sanitize_text_field` when it
      is a string, and its default is a valid value of the entry. */
  lemma {:induction false} PropertyValid(host: Host, key: string)
    requires key in SettingKeys
    ensures UsesTextField(PropertyOf(host, key))
    ensures Conforms(PropertyOf(host, key), PropertyOf(host, key).default)
  {
    PropertyDeclared(host, key);
    if key == "setting5" {
      assert PropertyOf(host, key).default == DefaultOf(host, key) == Str("option-1");
    }
  }

  /** Every declared entry is cleaned by `sanitize_text_field` when it is a
      string, and its default is a valid value of the entry. */
  lemma {:induction false} SchemaEntryValid(host: Host, key: string)
    requires key in SettingKeys
    ensures key in Schema(host)
    ensures UsesTextField(Schema(host)[key])
    ensures Conforms(Schema(host)[key], Schema(host)[key].default)
  {
    PropertyValid(host, key);
  }

  // ------------------------------------------------------------- sanitiser

  /** A string entry with an enumeration yields a member or the fallback (the
      default, or "" without one) and nothing else: a cleaned input that is a
      member is kept, any other is replaced by the fallback. Without an
      enumeration the cleaned input is the result. */
  lemma SanitizeString(host: Host, v: Value, e: SchemaEntry)
    requires e.typ == Some("string")
    ensures var r := SanitizeOption(host, v, e);
      var cleaned := CallUserFunc(host, CallbackOf(e), v);
      && (e.enumValues.Some? ==> r in e.enumValues.value || r == Coalesce(e.default, Str("")))
      && (e.enumValues.Some? && cleaned in e.enumValues.value ==> r == cleaned)
      && (e.enumValues.Some? && cleaned !in e.enumValues.value ==> r == Coalesce(e.default, Str("")))
      && (e.enumValues.None? ==> r == cleaned)
      && (e.enumValues.None? && UsesTextField(e) ==> r == Str(host.sanitizeTextField(v)))
  {
  }

  /** A boolean entry yields the parsed input when parsing succeeds, and otherwise
      its default, or false without one. */
  lemma SanitizeBoolean(host: Host, v: Value, e: SchemaEntry)
    requires e.typ == Some("boolean")
    ensures host.validateBoolean(v).Some? ==> SanitizeOption(host, v, e) == Bool(host.validateBoolean(v).value)
    ensures host.validateBoolean(v).None? ==>
      SanitizeOption(host, v, e) == if e.default != Null then e.default else Bool(false)
  {
  }

  /** Any other type yields the entry's default when it has one, otherwise the
      input unchanged. */
  lemma SanitizeOtherType(host: Host, v: Value, e: SchemaEntry)
    requires e.typ != Some("string") && e.typ != Some("boolean")
    ensures e.default != Null ==> SanitizeOption(host, v, e) == e.default
    ensures e.default == Null ==> SanitizeOption(host, v, e) == v
  {
  }

  /** Sanitising against a declared entry never fails and always yields a valid,
      non-null value of that entry's type. */
  lemma {:induction false} SanitizeConforms(host: Host, key: string, v: Value)
    requires key in SettingKeys
    ensures key in Schema(host)
    ensures Conforms(Schema(host)[key], SanitizeOption(host, v, Schema(host)[key]))
    ensures SanitizeOption(host, v, Schema(host)[key]) != Null
  {
    SchemaMatchesDefaults(host);
    SchemaEntryValid(host, key);
  }

  /** `setting5` only ever takes one of its two choices: the cleaned input when it
      is one of them, `option-1` otherwise. */
  lemma {:induction false} Setting5Sanitised(host: Host, v: Value)
    ensures "setting5" in Schema(host)
    ensures var r := SanitizeOption(host, v, Schema(host)["setting5"]);
      && r in Setting5Choices
      && (Str(host.sanitizeTextField(v)) in Setting5Choices ==> r == Str(host.sanitizeTextField(v)))
      && (Str(host.sanitizeTextField(v)) !in Setting5Choices ==> r == Str("option-1"))
  {
    Setting5Entry(host);
    SanitizeString(host, v, Schema(host)["setting5"]);
  }

  // ----------------------------------------------------------------- reads

  /** Without the plugin name a read yields false for a key and an empty array
      otherwise. */
  lemma ReadUndefined(stored: Option<Value>, host: Host, key: string)
    ensures GetOptions(false, stored, host, key) == if IsEmpty(key) then Arr(map[]) else Bool(false)
  {
  }

  /** A single-key read: the stored value when present and not null, else the
      default when there is one, else false. */
  lemma {:induction false} SingleKeyRead(stored: Option<Value>, host: Host, key: string)
    requires !IsEmpty(key)
    ensures key in StoredOptions(stored) && StoredOptions(stored)[key] != Null ==>
      GetOptions(true, stored, host, key) == StoredOptions(stored)[key]
    ensures (key !in StoredOptions(stored) || StoredOptions(stored)[key] == Null) && key in SettingKeys ==>
      GetOptions(true, stored, host, key) == DefaultOptions(host)[key]
    ensures (key !in StoredOptions(stored) || StoredOptions(stored)[key] == Null) && key !in SettingKeys ==>
      GetOptions(true, stored, host, key) == Bool(false)
  {
  }

  /** The full read holds every default key, keeps every stored key (declared or
      not) with its stored value, and falls back to the defaults for the rest; a
      blob that is not an array reads as the defaults alone. */
  lemma {:induction false} FullRead(stored: Option<Value>, host: Host)
    ensures GetOptions(true, stored, host, "") == Arr(Snapshot(host, stored))
    ensures var m := Snapshot(host, stored);
      && m.Keys == SettingKeys + StoredOptions(stored).Keys
      && (forall k :: k in StoredOptions(stored) ==> m[k] == StoredOptions(stored)[k])
      && (forall k :: k in m && k !in StoredOptions(stored) ==> m[k] == DefaultOptions(host)[k])
    ensures !(stored.Some? && stored.value.Arr?) ==> Snapshot(host, stored) == DefaultOptions(host)
  {
  }

  /** A single-key read agrees with the full read wherever the full read holds a
      non-null value, and yields false for a key the full read lacks. They differ
      only on a key stored as null, where the single read falls back. */
  lemma {:induction false} SingleReadAgreesWithFullRead(stored: Option<Value>, host: Host, key: string)
    requires !IsEmpty(key)
    ensures var full := Snapshot(host, stored);
      && (key in full && full[key] != Null ==> GetOptions(true, stored, host, key) == full[key])
      && (key !in full ==> GetOptions(true, stored, host, key) == Bool(false))
      && (key in full && full[key] == Null ==>
            GetOptions(true, stored, host, key) == if key in SettingKeys then DefaultOptions(host)[key] else Bool(false))
  {
    FullRead(stored, host);
    SingleKeyRead(stored, host, key);
  }

  // ---------------------------------------------------------------- writes

  /** The snapshot a single-key write persists. */
  lemma WrittenSingleKey(host: Host, stored: Option<Value>, key: string, v: Value)
    requires !IsEmpty(key)
    ensures WrittenOptions(host, stored, Str(key), v) == Snapshot(host, stored)[key := WriteValue(host, Schema(host), key, v)]
  {
  }

  /** The snapshot a map write persists. */
  lemma WrittenMap(host: Host, stored: Option<Value>, data: map<string, Value>, val: Value)
    ensures WrittenOptions(host, stored, Arr(data), val) ==
      ArrayMerge(Snapshot(host, stored), SanitizeEntries(host, Schema(host), data))
  {
  }

  /** An empty key, or input that is neither a string nor an array, writes back
      the previous full read unchanged. */
  lemma DegenerateWrite(host: Host, stored: Option<Value>, keyOrData: Value, val: Value)
    requires (keyOrData.Str? && IsEmpty(keyOrData.s)) || (!keyOrData.Str? && !keyOrData.Arr?)
    ensures WrittenOptions(host, stored, keyOrData, val) == Snapshot(host, stored)
  {
  }

  /** What a write stores for one key: the sanitised value for a declared key,
      the raw value for any other. */
  lemma {:induction false} WriteValueOf(host: Host, key: string, v: Value)
    ensures key in SettingKeys ==> WriteValue(host, Schema(host), key, v) == SanitizeOption(host, v, Schema(host)[key])
    ensures key !in SettingKeys ==> WriteValue(host, Schema(host), key, v) == v
  {
    SchemaMatchesDefaults(host);
  }

  /** A single-key write changes that key alone: it holds the sanitised value when
      the key is declared and the raw value otherwise, and every other key of the
      previous full read is written back as it was. */
  lemma {:induction false} SingleKeyWrite(host: Host, stored: Option<Value>, key: string, v: Value)
    requires !IsEmpty(key)
    ensures var w := WrittenOptions(host, stored, Str(key), v);
      var before := Snapshot(host, stored);
      && w.Keys == before.Keys + {key}
      && w[key] == (if key in SettingKeys then SanitizeOption(host, v, Schema(host)[key]) else v)
      && (forall k :: k in before && k != key ==> w[k] == before[k])
  {
    WrittenSingleKey(host, stored, key, v);
    WriteValueOf(host, key, v);
  }

  /** A map write: every entry of the map is written, sanitised when its key is
      declared and raw otherwise, over the previous full read; keys the map does
      not mention keep their previous value. */
  lemma {:induction false} MapWrite(host: Host, stored: Option<Value>, data: map<string, Value>, val: Value)
    ensures var w := WrittenOptions(host, stored, Arr(data), val);
      var before := Snapshot(host, stored);
      && w.Keys == before.Keys + data.Keys
      && (forall k :: k in data && k in SettingKeys ==> w[k] == SanitizeOption(host, data[k], Schema(host)[k]))
      && (forall k :: k in data && k !in SettingKeys ==> w[k] == data[k])
      && (forall k :: k in before && k !in data ==> w[k] == before[k])
  {
    WrittenMap(host, stored, data, val);
    forall k | k in data
      ensures WriteValue(host, Schema(host), k, data[k]) ==
        if k in SettingKeys then SanitizeOption(host, data[k], Schema(host)[k]) else data[k]
    {
      WriteValueOf(host, k, data[k]);
    }
  }

  /** The full read of a blob that already holds every default key is that blob. */
  lemma {:induction false} SnapshotOfTotal(host: Host, m: map<string, Value>)
    requires SettingKeys <= m.Keys
    ensures Snapshot(host, Some(Arr(m))) == m
  {
    FullRead(Some(Arr(m)), host);
    var s := Snapshot(host, Some(Arr(m)));
    assert s.Keys == m.Keys;
  }

  /** Repeating a map write leaves the persisted blob as the first write left it. */
  lemma {:induction false} MapWriteIdempotent(host: Host, stored: Option<Value>, data: map<string, Value>, val: Value)
    ensures var once := WrittenOptions(host, stored, Arr(data), val);
      WrittenOptions(host, Some(Arr(once)), Arr(data), val) == once
  {
    var once := WrittenOptions(host, stored, Arr(data), val);
    var processed := SanitizeEntries(host, Schema(host), data);
    SnapshotOfTotal(host, once);
    WrittenMap(host, stored, data, val);
    WrittenMap(host, Some(Arr(once)), data, val);
    assert ArrayMerge(once, processed) == once;
  }

  /** Repeating a single-key write leaves the persisted blob as the first write
      left it. */
  lemma {:induction false} SingleWriteIdempotent(host: Host, stored: Option<Value>, key: string, val: Value)
    requires !IsEmpty(key)
    ensures var once := WrittenOptions(host, stored, Str(key), val);
      WrittenOptions(host, Some(Arr(once)), Str(key), val) == once
  {
    var once := WrittenOptions(host, stored, Str(key), val);
    SnapshotOfTotal(host, once);
    WrittenSingleKey(host, stored, key, val);
    WrittenSingleKey(host, Some(Arr(once)), key, val);
  }

  /** Repeating a write leaves the persisted blob as the first write left it. */
  lemma {:induction false} WriteIdempotent(host: Host, stored: Option<Value>, keyOrData: Value, val: Value)
    ensures var once := WrittenOptions(host, stored, keyOrData, val);
      WrittenOptions(host, Some(Arr(once)), keyOrData, val) == once
  {
    if keyOrData.Arr? {
      MapWriteIdempotent(host, stored, keyOrData.entries, val);
    } else if keyOrData.Str? && !IsEmpty(keyOrData.s) {
      SingleWriteIdempotent(host, stored, keyOrData.s, val);
    } else {
      var once := WrittenOptions(host, stored, keyOrData, val);
      DegenerateWrite(host, stored, keyOrData, val);
      DegenerateWrite(host, Some(Arr(once)), keyOrData, val);
      FullRead(stored, host);
      SnapshotOfTotal(host, once);
    }
  }

  /** The full read of a conforming blob is conforming: the defaults it adds are
      valid values of their entries. */
  lemma {:induction false} SnapshotConforms(host: Host, stored: Option<Value>)
    requires SchemaConforming(host, StoredOptions(stored))
    ensures SchemaConforming(host, Snapshot(host, stored))
  {
    var schema := Schema(host);
    var before := Snapshot(host, stored);
    FullRead(stored, host);
    SchemaMatchesDefaults(host);
    forall k | k in before && k in schema ensures Conforms(schema[k], before[k]) {
      if k !in StoredOptions(stored) {
        SchemaEntryValid(host, k);
      }
    }
  }

  /** Sanitising a map against the schema yields a conforming map. */
  lemma {:induction false} SanitizedEntriesConform(host: Host, data: map<string, Value>)
    ensures SchemaConforming(host, SanitizeEntries(host, Schema(host), data))
  {
    var schema := Schema(host);
    var processed := SanitizeEntries(host, schema, data);
    SchemaMatchesDefaults(host);
    forall k | k in processed && k in schema ensures Conforms(schema[k], processed[k]) {
      SanitizeConforms(host, k, data[k]);
    }
  }

  /** A single-key write keeps every declared key valid. */
  lemma {:induction false} SingleWritePreservesConformance(host: Host, stored: Option<Value>, key: string, val: Value)
    requires !IsEmpty(key) && SchemaConforming(host, StoredOptions(stored))
    ensures SchemaConforming(host, WrittenOptions(host, stored, Str(key), val))
  {
    SnapshotConforms(host, stored);
    SchemaMatchesDefaults(host);
    WrittenSingleKey(host, stored, key, val);
    if key in SettingKeys {
      SanitizeConforms(host, key, val);
    }
  }

  /** A map write keeps every declared key valid. */
  lemma {:induction false} MapWritePreservesConformance(host: Host, stored: Option<Value>, data: map<string, Value>, val: Value)
    requires SchemaConforming(host, StoredOptions(stored))
    ensures SchemaConforming(host, WrittenOptions(host, stored, Arr(data), val))
  {
    SnapshotConforms(host, stored);
    WrittenMap(host, stored, data, val);
    SanitizedEntriesConform(host, data);
  }

  /** A write keeps every declared key valid: when the stored blob held only valid
      values for declared keys, so does the blob written. */
  lemma {:induction false} WritePreservesConformance(host: Host, stored: Option<Value>, keyOrData: Value, val: Value)
    requires SchemaConforming(host, StoredOptions(stored))
    ensures SchemaConforming(host, WrittenOptions(host, stored, keyOrData, val))
  {
    if keyOrData.Str? && !IsEmpty(keyOrData.s) {
      SingleWritePreservesConformance(host, stored, keyOrData.s, val);
    } else if keyOrData.Arr? {
      MapWritePreservesConformance(host, stored, keyOrData.entries, val);
    } else {
      SnapshotConforms(host, stored);
      DegenerateWrite(host, stored, keyOrData, val);
    }
  }

  /** Reading a declared key after writing it yields the sanitised input. */
  lemma {:induction false} ReadAfterSingleWrite(host: Host, stored: Option<Value>, key: string, v: Value)
    requires key in SettingKeys
    ensures key in Schema(host)
    ensures GetOptions(true, Some(Arr(WrittenOptions(host, stored, Str(key), v))), host, key)
      == SanitizeOption(host, v, Schema(host)[key])
  {
    DeclaredKeysNonEmpty(key);
    SchemaMatchesDefaults(host);
    SingleKeyWrite(host, stored, key, v);
    SanitizeConforms(host, key, v);
    var w := WrittenOptions(host, stored, Str(key), v);
    SingleKeyRead(Some(Arr(w)), host, key);
  }

  /** Reading an undeclared key after writing it yields the raw input, or false
      when the input was null. */
  lemma {:induction false} ReadAfterUnknownWrite(host: Host, stored: Option<Value>, key: string, v: Value)
    requires !IsEmpty(key) && key !in SettingKeys
    ensures GetOptions(true, Some(Arr(WrittenOptions(host, stored, Str(key), v))), host, key)
      == if v != Null then v else Bool(false)
  {
    SingleKeyWrite(host, stored, key, v);
    var w := WrittenOptions(host, stored, Str(key), v);
    SingleKeyRead(Some(Arr(w)), host, key);
  }

  /** Reading a key after a map write that holds it yields the sanitised entry for
      a declared key and the raw entry (false for null) for any other. */
  lemma {:induction false} ReadAfterMapWrite(host: Host, stored: Option<Value>, data: map<string, Value>, val: Value, key: string)
    requires key in data && !IsEmpty(key)
    ensures key in SettingKeys ==> key in Schema(host)
    ensures var r := GetOptions(true, Some(Arr(WrittenOptions(host, stored, Arr(data), val))), host, key);
      && (key in SettingKeys ==> r == SanitizeOption(host, data[key], Schema(host)[key]))
      && (key !in SettingKeys ==> r == if data[key] != Null then data[key] else Bool(false))
  {
    SchemaMatchesDefaults(host);
    var w := WrittenOptions(host, stored, Arr(data), val);
    WrittenMap(host, stored, data, val);
    WriteValueOf(host, key, data[key]);
    assert w[key] == WriteValue(host, Schema(host), key, data[key]);
    if key in SettingKeys {
      SanitizeConforms(host, key, data[key]);
    }
    SingleKeyRead(Some(Arr(w)), host, key);
  }

  /** Writing anything to `setting5` that does not clean to `option-1` or
      `option-2` reads back as `option-1`. */
  lemma {:induction false} Setting5WriteFallsBack(host: Host, stored: Option<Value>, v: Value)
    requires Str(host.sanitizeTextField(v)) !in Setting5Choices
    ensures GetOptions(true, Some(Arr(WrittenOptions(host, stored, Str("setting5"), v))), host, "setting5")
      == Str("option-1")
  {
    ReadAfterSingleWrite(host, stored, "setting5", v);
    Setting5Sanitised(host, v);
  }
}
