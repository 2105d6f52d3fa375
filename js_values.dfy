/** The JavaScript values that the handlers inspect in a JSON request body. */
module JsValues {

  /** A primitive value of a parsed request body; arrays and objects are not modelled.
      Numbers are integers (see README). */
  datatype JsValue = Undefined | Null | Bool(b: bool) | Num(n: int) | Str(s: string)

  /** JavaScript truthiness: `!v` holds exactly for undefined, null, false, 0 and "". */
  predicate Truthy(v: JsValue)
  {
    match v
    case Undefined => false
    case Null => false
    case Bool(b) => b
    case Num(n) => n != 0
    case Str(s) => s != ""
  }

  /** `body[name]`: the property of a request body, `undefined` when it is absent. */
  function Field(body: map<string, JsValue>, name: string): JsValue
  {
    if name in body then body[name] else Undefined
  }

  /** The decimal numeral of a natural number. */
  function DecimalDigits(n: nat): (r: string)
    ensures |r| > 0
    ensures forall i :: 0 <= i < |r| ==> '0' <= r[i] <= '9'
  {
    var last := [(('0' as int) + n % 10) as char];
    if n < 10 then last else DecimalDigits(n / 10) + last
  }

  /** `String(v)`: what a regular-expression `test` converts its argument to. */
  function ToJsString(v: JsValue): string
  {
    match v
    case Undefined => "undefined"
    case Null => "null"
    case Bool(b) => if b then "true" else "false"
    case Num(n) => if n < 0 then "-" + DecimalDigits(-n) else DecimalDigits(n)
    case Str(s) => s
  }

  /** Only a string value can contain '@' once converted to a string. */
  lemma NoAtOutsideStrings(v: JsValue)
    requires !v.Str?
    ensures '@' !in ToJsString(v)
  {
    if v.Num? {
      var digits := DecimalDigits(if v.n < 0 then -v.n else v.n);
      assert '@' !in digits by {
        forall i | 0 <= i < |digits| ensures digits[i] != '@' { }
      }
    }
  }
}
