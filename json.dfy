/**
 * The part of Newtonsoft's LINQ-to-JSON token model the converter touches:
 * a token is a value, an array or an object, and an object (a JObject) is a
 * map from property name to token. Property order is not modelled.
 */
module Json {

  datatype Json =
    | JNull
    | JBool(b: bool)
    | JNum(n: int)
    | JStr(s: string)
    | JArr(items: seq<Json>)
    | JObj(fields: map<string, Json>)

  /** The decimal digits of a natural number, most significant first. */
  function NatText(n: nat): (r: string)
    ensures |r| > 0
    ensures forall i :: 0 <= i < |r| ==> '0' <= r[i] <= '9'
    decreases n
  {
    var d := [(n % 10) as char + '0'];
    if n < 10 then d else NatText(n / 10) + d
  }

  /** The number a string of decimal digits denotes, most significant first. */
  function DigitsValue(s: string): nat
    requires forall i :: 0 <= i < |s| ==> '0' <= s[i] <= '9'
  {
    if s == [] then 0 else 10 * DigitsValue(s[..|s| - 1]) + (s[|s| - 1] - '0') as nat
  }

  /** The digits `NatText` writes denote the number it was given. */
  lemma {:induction false} NatTextDenotes(n: nat)
    ensures DigitsValue(NatText(n)) == n
    decreases n
  {
    var r := NatText(n);
    if n >= 10 {
      NatTextDenotes(n / 10);
      assert r[..|r| - 1] == NatText(n / 10);
    }
  }

  /** The text of an integer as `Int64.ToString()` gives it: a leading '-' for negatives. */
  function IntText(n: int): (r: string)
    ensures |r| > 0
    ensures r[0] == '-' <==> n < 0
  {
    if n < 0 then "-" + NatText(-n) else NatText(n)
  }

  /** The text of an integer is its magnitude's digits, after a '-' exactly when it is negative. */
  lemma IntTextDenotes(n: int)
    ensures n >= 0 ==> DigitsValue(IntText(n)) == n
    ensures n < 0 ==> IntText(n)[0] == '-' && DigitsValue(IntText(n)[1..]) == -n
  {
    if n < 0 {
      NatTextDenotes(-n);
      assert IntText(n)[1..] == NatText(-n);
    } else {
      NatTextDenotes(n);
    }
  }

  /**
   * `JToken.ToString()`: a string value is its own text, a JSON null gives the
   * empty string, a boolean prints as .NET's `Boolean.ToString()` does and an
   * integer as its decimal digits. An array or object prints as indented JSON;
   * only its opening and closing bracket are modelled.
   */
  function TokenText(j: Json): (r: string)
    ensures j.JStr? ==> r == j.s
    ensures r == "" <==> j.JNull? || j == JStr("")
    ensures j.JArr? ==> r[0] == '[' && r[|r| - 1] == ']'
    ensures j.JObj? ==> r[0] == '{' && r[|r| - 1] == '}'
  {
    match j
    case JNull => ""
    case JBool(b) => if b then "True" else "False"
    case JNum(n) => IntText(n)
    case JStr(s) => s
    case JArr(items) => if items == [] then "[]" else "[ ... ]"
    case JObj(fields) => if fields == map[] then "{}" else "{ ... }"
  }
}
