/** Python-level values as the Econt client sees them: the arguments a caller
    passes, their truthiness (`if not x:`) and the text that `str()` and
    `str.format` produce for them. */
module Values {

  datatype Option<+T> = None | Some(value: T) {
    predicate IsFailure() { None? }
    function PropagateFailure<U>(): Option<U> requires None? { None }
    function Extract(): T requires Some? { value }
  }

  datatype Result<+R, +E> = Success(value: R) | Failure(error: E) {
    predicate IsFailure() { Failure? }
    function PropagateFailure<U>(): Result<U, E> requires Failure? { Failure(error) }
    function Extract(): R requires Success? { value }
  }

  /** An argument of the client: a `str`, an `int`, or `None` (the default of
      every optional keyword argument). */
  datatype Value = VStr(s: string) | VInt(i: int) | VNone

  /** Python truthiness: the empty string, zero and `None` are falsy. */
  predicate Truthy(v: Value) {
    match v
    case VStr(s) => s != ""
    case VInt(i) => i != 0
    case VNone => false
  }

  /** `str(v)`, which is also what `"{x}".format(x=v)` inserts. */
  function Text(v: Value): string {
    match v
    case VStr(s) => s
    case VInt(i) => IntToString(i)
    case VNone => "None"
  }

  /** `v if v else ""`: a string stays as it is, None becomes empty, and a
      number is written out unless it is zero. */
  function TextOrEmpty(v: Value): (r: string)
    ensures v.VStr? ==> r == v.s
    ensures v.VNone? ==> r == ""
    ensures v.VInt? ==> (r == "" <==> v.i == 0)
  {
    if Truthy(v) then Text(v) else ""
  }

  /** The argument for an optional text: None when there is none, the text
      itself otherwise. */
  function Optional(s: string): (v: Value)
    ensures Truthy(v) <==> s != ""
    ensures TextOrEmpty(v) == s
  {
    if s == "" then VNone else VStr(s)
  }

  predicate IsDigit(c: char) { '0' <= c <= '9' }

  function DigitChar(d: nat): (c: char)
    requires d < 10
    ensures IsDigit(c) && DigitValue(c) == d
  {
    ('0' as int + d) as char
  }

  function DigitValue(c: char): nat
    requires IsDigit(c)
  {
    c as int - '0' as int
  }

  predicate AllDigits(s: string) {
    forall k :: 0 <= k < |s| ==> IsDigit(s[k])
  }

  /** The number a string of decimal digits denotes. */
  function NumeralValue(s: string): nat
    requires AllDigits(s)
  {
    if s == [] then 0 else 10 * NumeralValue(s[..|s| - 1]) + DigitValue(s[|s| - 1])
  }

  /** A decimal numeral as `str()` writes one: digits only, and no leading
      zero unless the numeral is "0" itself. */
  predicate Canonical(s: string) {
    |s| > 0 && AllDigits(s) && (s[0] == '0' ==> |s| == 1)
  }

  /** `str(n)` for a non-negative integer. */
  function NatToString(n: nat): (r: string)
    ensures Canonical(r) && NumeralValue(r) == n
    ensures (r[0] == '0') == (n == 0)
  {
    if n < 10 then [DigitChar(n)]
    else
      var prefix := NatToString(n / 10);
      var r := prefix + [DigitChar(n % 10)];
      assert r[..|r| - 1] == prefix;
      r
  }

  /** `str(i)` for any integer: a minus sign before the magnitude of a negative one. */
  function IntToString(i: int): (r: string)
    ensures |r| > 0 && (r[0] == '-') == (i < 0)
    ensures i < 0 ==> r[1..] == NatToString(-i)
    ensures i >= 0 ==> r == NatToString(i)
  {
    if i < 0 then "-" + NatToString(-i) else NatToString(i)
  }

  /** The numeral of each canonical decimal string is that string: `str()` and
      `int()` are inverse on canonical numerals. */
  lemma {:induction false} CanonicalNumeral(s: string)
    requires Canonical(s)
    ensures NatToString(NumeralValue(s)) == s
  {
    var n := NumeralValue(s);
    var init := s[..|s| - 1];
    if |s| == 1 {
      assert init == [] && NumeralValue(init) == 0;
      assert n == DigitValue(s[0]);
      assert DigitChar(n) == s[0];
      assert NatToString(n) == [s[0]];
    } else {
      assert s[0] != '0' && init[0] == s[0];
      NumeralBound(init);
      assert NumeralValue(init) >= 1;
      assert n / 10 == NumeralValue(init) && n % 10 == DigitValue(s[|s| - 1]);
      CanonicalNumeral(init);
      assert s == init + [s[|s| - 1]];
    }
  }

  /** A numeral whose first digit is not '0' denotes a positive number. */
  lemma {:induction false} NumeralBound(s: string)
    requires |s| > 0 && AllDigits(s) && s[0] != '0'
    ensures NumeralValue(s) >= 1
  {
    if |s| > 1 {
      var init := s[..|s| - 1];
      assert init[0] == s[0];
      NumeralBound(init);
    }
  }
}

/** The exceptions the client raises before any request is sent. */
module Errors {
  import opened Values

  datatype Error =
    | Raised(message: string)     // `raise Exception(message)`
    | KeyError(key: Value)        // a dictionary lookup of a missing key
    | UnboundLocal(name: string)  // a local variable read before it is assigned

  const NoCredentials := "No username or password supplied"
  const InvalidRequestType := "Invalid request type"
  const NoTypeId := "No type id supplied"
  const InvalidShipmentIds := "Invalid shipment id(s)"
  const InvalidCity := "Invalid city supplied"
  const InvalidDate := "Invalid date supplied"
  const InvalidShipmentIdsSupplied := "Invalid shipment id(s) supplied"
  const InvalidClientInfo := "Invalid client information"
  const InvalidCashOnDelivery := "Invalid Cash on Delivery information"
  const NoMediatorId := "No mediator id supplied"
}
