/** The slice of PHP and of the WordPress host that the settings store relies on:
    dynamically typed values, the `??` and `empty()` operators, `array_merge` on
    string-keyed arrays, and the host functions the store calls but does not define. */
module Php {

  datatype Option<+T> = None | Some(value: T)

  /** A PHP value as far as the settings store can observe it. An array is a
      string-keyed dictionary; `Null` also stands for "not set" wherever the source
      reads a value through `??` or `isset`, which do not tell the two apart. */
  datatype Value =
    | Null
    | Bool(b: bool)
    | Int(i: int)
    | Str(s: string)
    | Arr(entries: map<string, Value>)

  /** The host functions the store calls. They are parameters of the model: their
      behaviour belongs to WordPress and PHP, not to the plugin. */
  datatype Host = Host(
    escHtmlTranslate: string -> string,     // esc_html__( text, 'blank-plugin' )
    translate: string -> string,            // __( text, 'blank-plugin' )
    sanitizeTextField: Value -> string,     // sanitize_text_field( value )
    namedCallback: (string, Value) -> Value, // call_user_func( name, value ) for any other name
    validateBoolean: Value -> Option<bool>  // filter_var( value, FILTER_VALIDATE_BOOLEAN, FILTER_NULL_ON_FAILURE )
  )

  /** `a ?? b`: the left operand unless it is null (or unset). */
  function Coalesce(a: Value, b: Value): Value
  {
    if a != Null then a else b
  }

  /** `empty( $s )` for a string: true for "" and for "0". The same test decides
      the truthiness of a string in `$s ? x : y`. */
  predicate IsEmpty(s: string) {
    s == "" || s == "0"
  }

  /** `array_merge( $a, $b )` on string-keyed arrays: every key of either array,
      the later array winning on the keys they share. */
  function ArrayMerge(a: map<string, Value>, b: map<string, Value>): map<string, Value>
  {
    a + b
  }

  /** `call_user_func( $name, $value )`: `sanitize_text_field` always yields a string;
      any other callback is whatever the host registered under that name. */
  function CallUserFunc(host: Host, name: string, v: Value): Value
  {
    if name == "sanitize_text_field" then Str(host.sanitizeTextField(v))
    else host.namedCallback(name, v)
  }
}
