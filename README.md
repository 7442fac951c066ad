# Blank Plugin settings store, in Dafny

This project models the settings store of the Blank Plugin WordPress plugin: the
static helpers of its `Utils` class that declare the plugin's six options, describe
them as a JSON Schema (draft-04), sanitise a value against one schema entry, read
the options back with their defaults, and write them through the single option
row named after the plugin.

- `Php` (php.dfy) holds the slice of PHP the store relies on: a dynamically typed
  `Value`, `??` (`Coalesce`), `empty()` on strings (`IsEmpty`, true for `""` and
  `"0"`), `array_merge` on string-keyed arrays, `call_user_func`, and a `Host`
  record carrying the WordPress and PHP functions the store calls but does not
  define (`esc_html__`, `__`, `sanitize_text_field`, `filter_var` with
  `FILTER_VALIDATE_BOOLEAN`, any other named callback).
- `Utils` (utils.dfy) holds the functions of the class as written:
  `DefaultOptions`, `GetSettingsSchema`, `SanitizeOption`, `GetOptions`, and
  `WrittenOptions`, the array `update_options` hands to `update_option`.
- `UtilsProperties` (properties.dfy) proves what those functions promise.
- `OptionsStore` (store.dfy) holds the state: a `Store` class whose `blob` field
  is the option row and whose ghost `log` field records every value written to it, with
  `Read` for `get_options` and the imperative `UpdateOptions` for
  `update_options`. The array `update_options` builds before writing is computed
  by `BuildOptions`, proved against `WrittenOptions`; its `foreach` over a map
  write is the loop of `SanitizeEach`.

## Model

| member | source | states |
|---|---|---|
| Utils.DefaultOptions | inc/classes/class-utils.php:73-85 | the defaults declare exactly `setting1`–`setting5` and `deleteAll`, and none of them is null |
| UtilsProperties.DeclaredKeysNonEmpty | inc/classes/class-utils.php:75-82 | no declared key is empty in the sense of `empty()`, so each is readable and writable one key at a time |
| UtilsProperties.PropertyDeclared | inc/classes/class-utils.php:227-262 | the entry declared for a key has a type and that key's default option as its default |
| Utils.GetSettingsSchema | inc/classes/class-utils.php:225-271 | the schema is a draft-04 JSON Schema of type `object` whose properties declare exactly the six option keys |
| UtilsProperties.SchemaMatchesDefaults | inc/classes/class-utils.php:225-271 | the schema's properties declare the same keys as the defaults, each typed, each defaulting to the default option |
| UtilsProperties.Setting5Entry | inc/classes/class-utils.php:251-257 | `setting5` is a string limited to `option-1`/`option-2`, cleaned by `sanitize_text_field`, defaulting to `option-1`, which is one of the choices |
| UtilsProperties.PropertyValid | inc/classes/class-utils.php:227-262 | each declared entry's default is a valid value of that entry, and string entries are cleaned by `sanitize_text_field` |
| UtilsProperties.SchemaEntryValid | inc/classes/class-utils.php:225-271 | the same for every entry of the returned schema |
| UtilsProperties.SanitizeString | inc/classes/class-utils.php:284-290 | a string entry with an enumeration keeps a cleaned input that is a member and replaces any other by exactly the fallback (default, else `""`); without one it yields the cleaned input |
| UtilsProperties.SanitizeBoolean | inc/classes/class-utils.php:291-293 | a boolean entry yields the parsed boolean, else the entry's default, else false |
| UtilsProperties.SanitizeOtherType | inc/classes/class-utils.php:294-295 | any other type yields the entry's default, else the input unchanged |
| Utils.SanitizeOption | inc/classes/class-utils.php:281-298 | an entry cleaned by `sanitize_text_field` (named or by default) whose own default is valid turns every input into a valid value of the entry: a string (in the enumeration when there is one) for a string entry, a boolean for a boolean entry |
| UtilsProperties.SanitizeConforms | inc/classes/class-utils.php:281-298 | sanitising against any declared entry yields a non-null value of its type (and enumeration) |
| UtilsProperties.Setting5Sanitised | inc/classes/class-utils.php:284-290 | `setting5` always sanitises to one of its choices: the cleaned input when it is a choice, `option-1` otherwise |
| UtilsProperties.ReadUndefined | inc/classes/class-utils.php:96-98 | unfolding step: without `BLANK_PLUGIN_NAME` a key reads as false and the full read is the empty array |
| Utils.StoredOptions | inc/classes/class-utils.php:100-105 | a stored row that is an array is read as it is; a missing row or any other value reads as the empty array |
| Utils.Snapshot | inc/classes/class-utils.php:111 | the full read holds exactly the declared keys and the stored keys, every stored value winning over its default |
| UtilsProperties.SingleKeyRead | inc/classes/class-utils.php:100-108 | a key reads as its stored value when set and not null, else its default, else false |
| UtilsProperties.FullRead | inc/classes/class-utils.php:100-111 | the full read holds every default key and every stored key, stored values winning; a row that is not an array reads as the defaults |
| UtilsProperties.SingleReadAgreesWithFullRead | inc/classes/class-utils.php:107-111 | a single-key read equals the full read's entry unless that entry is null or missing, where it falls back to the default or false |
| Utils.GetOptions | inc/classes/class-utils.php:94-112 | with the plugin name defined a key never reads as null, and the full read is an array holding exactly the declared keys and the stored keys |
| OptionsStore.Store.Read | inc/classes/class-utils.php:94-112 | with the plugin name defined a key never reads as null and the full read holds every declared key |
| UtilsProperties.WrittenSingleKey | inc/classes/class-utils.php:128-136 | unfolding step used by the proofs: a single-key write persists the full read with that key set to its processed value |
| UtilsProperties.WrittenMap | inc/classes/class-utils.php:137-144 | unfolding step used by the proofs: a map write persists the full read merged with the processed map |
| UtilsProperties.DegenerateWrite | inc/classes/class-utils.php:128-146 | unfolding step used by the proofs: an empty key, or input that is neither a string nor an array, persists the full read unchanged |
| UtilsProperties.WriteValueOf | inc/classes/class-utils.php:133-135 | a declared key is stored sanitised, any other key raw |
| Utils.WriteValue | inc/classes/class-utils.php:133-136 | a key without a typed schema entry is stored raw; for a typed entry cleaned by `sanitize_text_field` with a valid default the stored value is valid |
| UtilsProperties.SingleKeyWrite | inc/classes/class-utils.php:128-136 | a single-key write adds or replaces that key alone (sanitised when declared, raw otherwise) and keeps every other key of the full read |
| UtilsProperties.MapWrite | inc/classes/class-utils.php:137-144 | a map write stores every entry (sanitised when declared, raw otherwise) and keeps every key the map does not mention |
| Utils.SanitizeEntries | inc/classes/class-utils.php:138-142 | the processed map has the same keys as the input map, and every key without a typed schema entry keeps its raw value |
| OptionsStore.SanitizeEach | inc/classes/class-utils.php:138-142 | the `foreach` rewrites exactly the typed keys of the map to their sanitised values and keeps the rest |
| Utils.WrittenOptions | inc/classes/class-utils.php:128-146 | every write persists all six declared keys and every key previously stored, plus the key written or every key of the map written |
| UtilsProperties.SnapshotOfTotal | inc/classes/class-utils.php:100-111 | the full read of a row that holds every declared key is that row |
| UtilsProperties.SingleWriteIdempotent | inc/classes/class-utils.php:128-136 | repeating a single-key write persists the same array again |
| UtilsProperties.MapWriteIdempotent | inc/classes/class-utils.php:137-144 | repeating a map write persists the same array again |
| UtilsProperties.WriteIdempotent | inc/classes/class-utils.php:122-147 | repeating any write persists the same array again |
| UtilsProperties.SnapshotConforms | inc/classes/class-utils.php:100-111 | the full read of a row whose declared keys hold valid values has valid values for every declared key |
| UtilsProperties.SanitizedEntriesConform | inc/classes/class-utils.php:138-142 | after the `foreach` every declared key of the map holds a valid value |
| UtilsProperties.SingleWritePreservesConformance | inc/classes/class-utils.php:128-136 | a single-key write keeps every declared key valid |
| UtilsProperties.MapWritePreservesConformance | inc/classes/class-utils.php:137-144 | a map write keeps every declared key valid |
| UtilsProperties.WritePreservesConformance | inc/classes/class-utils.php:122-147 | a write keeps every declared key valid: a valid row stays valid |
| OptionsStore.BuildOptions | inc/classes/class-utils.php:128-144 | the array built from the current row is exactly `WrittenOptions`: the full read with one key replaced or a sanitised map merged over it |
| OptionsStore.Store.UpdateOptions | inc/classes/class-utils.php:122-147 | without the plugin name nothing changes; otherwise the row becomes the array the write computes, it is logged as one write, and a valid row stays valid |
| UtilsProperties.ReadAfterSingleWrite | inc/classes/class-utils.php:94-147 | after writing a declared key, reading it yields the sanitised input |
| UtilsProperties.ReadAfterUnknownWrite | inc/classes/class-utils.php:94-147 | after writing an undeclared key, reading it yields the raw input (false for null) |
| UtilsProperties.ReadAfterMapWrite | inc/classes/class-utils.php:94-147 | after a map write, whatever `$val` is passed, reading one of its keys yields the sanitised entry when declared and the raw entry (false for null) otherwise |
| UtilsProperties.Setting5WriteFallsBack | inc/classes/class-utils.php:251-298 | writing to `setting5` anything that does not clean to a choice reads back as `option-1` |

### Behaviour worth knowing

- `sanitize_option` has branches for `string` and `boolean` only; an entry of
  any other type yields its default, else the input (`SanitizeOtherType`).
- An undeclared key reads as false until written, and a single-key write stores
  it raw (`ReadAfterUnknownWrite`).
- A map write merges undeclared keys raw (`MapWrite`).
- Stored keys outside the defaults survive a full read (`FullRead`).
- Every write persists the full read, defaults included (`WrittenOptions`).

## Left out

- Host functions (`esc_html__`, `__`, `sanitize_text_field`, `filter_var`, other
  `call_user_func` callbacks) are parameters of the model; their behaviour is
  WordPress's and PHP's.
- The `_get_default_options` and `_options_properties` filters are taken as the
  identity; code registered on them is not part of this model.
- `get_option` and `update_option` are the `blob` field and its assignment;
  database failure, caching and `update_option`'s return value are not modelled.
- PHP arrays are string-keyed maps: integer keys, numeric-string key conversion,
  `array_merge` renumbering and key order are not modelled.
- Floats and objects are not values of the model.
- The schema's `type` is compared exactly; PHP's loose `switch` comparison for
  non-string types is not modelled.
- OptionsStore.SanitizeEach: visits keys in an arbitrary order rather than array
  order; each key is rewritten once, so the result is the same.
- OptionsStore.Store.UpdateOptions: `$val` defaults to `''` in PHP; callers of the
  model pass it explicitly.
- `get_posts`, `file_system`, `parse_changelog`, the white-label settings and the
  rest of the plugin (REST routes, admin pages, JavaScript) are not part of this
  model.
