/** Values carried by a request body (after Express's JSON or multer's multipart
    parsing) and JavaScript's conversion of such a value to text, which is what a
    template literal `${v}` produces. Numbers are modelled as integers. */
module JsValues {
  import opened Wrappers

  datatype JsValue =
    | Undefined
    | Null
    | Bool(b: bool)
    | Num(n: int)
    | Str(s: string)
    | Arr(items: seq<JsValue>)
    | Obj(fields: seq<(string, JsValue)>)

  /** The text of the template literal `${v}`: a string is its own text, and a
      number's text reads back as that number. */
  function Template(v: JsValue): (r: string)
    ensures v.Str? ==> r == v.s
    ensures v.Num? ==> ParseInt(r) == Some(v.n)
    decreases v, 1
  {
    match v
    case Undefined => "undefined"
    case Null => "null"
    case Bool(b) => if b then "true" else "false"
    case Num(n) => IntTextRoundTrip(n); IntText(n)
    case Str(s) => s
    case Arr(items) => JoinedText(items)
    case Obj(_) => "[object Object]"
  }

  /** `Array.prototype.toString`: the elements' texts joined by commas. */
  function JoinedText(items: seq<JsValue>): string
    decreases items, 0
  {
    if |items| == 0 then ""
    else if |items| == 1 then ElementText(items[0])
    else ElementText(items[0]) + "," + JoinedText(items[1..])
  }

  /** An array element's text: `null` and `undefined` elements show as empty text. */
  function ElementText(v: JsValue): string
    decreases v, 2
  {
    if v.Undefined? || v.Null? then "" else Template(v)
  }

  predicate IsDigit(c: char) {
    '0' <= c <= '9'
  }

  function DigitChar(d: nat): (c: char)
    requires d < 10
    ensures IsDigit(c) && DigitValue(c) == d
  {
    ((('0' as int) + d) as char)
  }

  /** Decimal digits of a natural number, most significant first, no leading zero. */
  function NatText(n: nat): (s: string)
    ensures |s| > 0
    ensures forall i :: 0 <= i < |s| ==> IsDigit(s[i])
    ensures |s| > 1 ==> s[0] != '0'
    decreases n
  {
    if n < 10 then [DigitChar(n)] else NatText(n / 10) + [DigitChar(n % 10)]
  }

  /** JavaScript's text of an integer-valued number: a minus sign and the digits. */
  function IntText(n: int): string {
    if n < 0 then "-" + NatText(-n) else NatText(n)
  }

  /** Value of a string of decimal digits. */
  function DigitsValue(s: string): nat
    requires forall i :: 0 <= i < |s| ==> IsDigit(s[i])
  {
    if |s| == 0 then 0
    else 10 * DigitsValue(s[..|s| - 1]) + DigitValue(s[|s| - 1])
  }

  function DigitValue(c: char): (d: nat)
    requires IsDigit(c)
    ensures d < 10
  {
    (c as int) - ('0' as int)
  }

  /** Reads back an optionally signed decimal integer; `None` for any other text. */
  function ParseInt(s: string): Option<int> {
    if |s| > 0 && s[0] == '-' then
      (if |s| > 1 && forall i :: 1 <= i < |s| ==> IsDigit(s[i])
       then Some(0 - DigitsValue(s[1..]) as int) else None)
    else if |s| > 0 && forall i :: 0 <= i < |s| ==> IsDigit(s[i]) then Some(DigitsValue(s))
    else None
  }

  lemma {:induction false} DigitsValueOfNatText(n: nat)
    ensures DigitsValue(NatText(n)) == n
    decreases n
  {
    if n >= 10 {
      var s := NatText(n);
      assert s[..|s| - 1] == NatText(n / 10);
      DigitsValueOfNatText(n / 10);
    }
  }

  /** The text of an integer reads back as that integer. */
  lemma IntTextRoundTrip(n: int)
    ensures ParseInt(IntText(n)) == Some(n)
  {
    if n < 0 {
      var digits := NatText(-n);
      var s := "-" + digits;
      assert s[0] == '-' && s[1..] == digits;
      assert forall i :: 1 <= i < |s| ==> IsDigit(s[i]) by {
        forall i | 1 <= i < |s| ensures IsDigit(s[i]) { assert s[i] == digits[i - 1]; }
      }
      DigitsValueOfNatText(-n);
    } else {
      DigitsValueOfNatText(n);
    }
  }

  /** A template literal leaves a string untouched and turns every other value into a
      string; applying it to its own result changes nothing further. */
  lemma TemplateOfText(v: JsValue)
    ensures Template(Str(Template(v))) == Template(v)
  {
  }

  /** What reading `v.length` gives. */
  datatype LengthRead =
    | ReadThrows          // `null.length` and `undefined.length` raise a TypeError
    | NoLength            // booleans, numbers and plain objects have no `length`
    | HasLength(n: nat)

  /** `v.length`: the element count of an array, the character count of a string. */
  function LengthOf(v: JsValue): (l: LengthRead)
    ensures l.ReadThrows? <==> v.Null? || v.Undefined?
    ensures l.NoLength? <==> v.Bool? || v.Num? || v.Obj?
    ensures v.Arr? ==> l == HasLength(|v.items|)
    ensures v.Str? ==> l == HasLength(|v.s|)
  {
    match v
    case Undefined => ReadThrows
    case Null => ReadThrows
    case Arr(items) => HasLength(|items|)
    case Str(s) => HasLength(|s|)
    case _ => NoLength
  }
}
