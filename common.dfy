/** Values, failures and the few Python operations the ratio engine is built from.

    Every ratio in the engine is Python float arithmetic over numbers that may be
    absent (`None`) or looked up by key in a dict, and every failure surfaces as an
    exception. Amounts are modelled as `real`; an exception becomes an `Err` carrying
    the `Fault` Python would raise, so that which check fires first, and with which
    status code, is part of every result. */
module Common {

  datatype Option<+T> = None | Some(value: T)

  /** The exceptions the ratio engine can raise. */
  datatype Fault =
    | HttpError(status: nat, detail: Detail)   // fastapi.HTTPException
    | ZeroDivision                            // ZeroDivisionError: float division by zero
    | NoneOperand                             // TypeError: arithmetic on an absent (None) field
    | KeyMissing(key: string)                 // KeyError on a dict lookup
    | IndexOutOfRange                         // IndexError on an empty list
    | ValidationFailed                        // pydantic ValidationError when a record is built
  {
    predicate IsHttp() { HttpError? }
  }

  /** The `detail` of an HTTPException: a literal message, or the message
      `f"An error occurred: {str(e)}"` built by a blanket `except Exception`. */
  datatype Detail = Message(text: string) | AnErrorOccurred(cause: Fault)

  datatype Result<+T> = Ok(value: T) | Err(fault: Fault) {
    predicate IsFailure() { Err? }

    function PropagateFailure<U>(): Result<U>
      requires Err?
    {
      Err(fault)
    }

    function Extract(): T
      requires Ok?
    {
      value
    }
  }

  /** A scalar of a JSON body or of a keyword argument: a number, a string or null. */
  datatype Value = Num(n: real) | Text(s: string) | Null

  /** A request body of numbers keyed by field name, as the dict-based calculators receive it. */
  type Dict = map<string, real>

  /** Python `a / b` on floats. */
  function Div(a: real, b: real): (r: Result<real>)
    ensures r.Ok? <==> b != 0.0
    ensures r.Err? ==> r.fault == ZeroDivision
    ensures r.Ok? ==> r.value * b == a
  {
    if b == 0.0 then Err(ZeroDivision) else Ok(a / b)
  }

  /** Using an `Optional[float]` field as an operand: `None` raises a TypeError. */
  function Number(x: Option<real>): (r: Result<real>)
    ensures r.Ok? <==> x.Some?
    ensures r.Err? ==> r.fault == NoneOperand
    ensures r.Ok? ==> x == Some(r.value)
  {
    match x
    case Some(v) => Ok(v)
    case None => Err(NoneOperand)
  }

  /** Python `d[key]` on a dict of numbers. */
  function Get(d: Dict, key: string): (r: Result<real>)
    ensures r.Ok? <==> key in d
    ensures r.Err? ==> r.fault == KeyMissing(key)
    ensures r.Ok? ==> d[key] == r.value
  {
    if key in d then Ok(d[key]) else Err(KeyMissing(key))
  }

  /** Python `a / b` on two `Optional[float]` fields once `b == 0` has been ruled out: an absent
      operand raises a TypeError. */
  function OptionalQuotient(a: Option<real>, b: Option<real>): (r: Result<real>)
    requires !IsZero(b)
    ensures r.Ok? <==> a.Some? && b.Some?
    ensures r.Err? ==> r.fault == NoneOperand
    ensures r.Ok? ==> r.value * b.value == a.value
  {
    var x :- Number(a);
    var y :- Number(b);
    Ok(x / y)
  }

  /** Python `a - b` on two `Optional[float]` fields. */
  function OptionalDifference(a: Option<real>, b: Option<real>): (r: Result<real>)
    ensures r.Ok? <==> a.Some? && b.Some?
    ensures r.Err? ==> r.fault == NoneOperand
    ensures r.Ok? ==> r.value + b.value == a.value
  {
    var x :- Number(a);
    var y :- Number(b);
    Ok(x - y)
  }

  /** Two numbers with the same non-zero multiple are equal. */
  lemma EqualAfterScaling(x: real, y: real, c: real)
    requires c != 0.0 && x * c == y * c
    ensures x == y
  {
    assert (x - y) * c == 0.0;
  }

  /** `x == 0` for an `Optional[float]` field: `None == 0` is False in Python. */
  predicate IsZero(x: Option<real>) {
    x == Some(0.0)
  }

  /** The effect of `try: ... except Exception as e: raise HTTPException(status_code=500,
      detail=f"An error occurred: {str(e)}")` on the result of the guarded block. */
  function CatchAll<T>(body: Result<T>): (r: Result<T>)
    ensures body.Ok? ==> r == body
    ensures body.Err? ==> r == Err(HttpError(500, AnErrorOccurred(body.fault)))
    ensures r.Err? ==> r.fault.IsHttp() && r.fault.status == 500
    ensures r.Err? ==> r.fault == Internal(body.fault)
  {
    match body
    case Ok(_) => body
    case Err(f) => Err(Internal(f))
  }

  /** The 500 error a blanket handler raises for exception `f`. */
  function Internal(f: Fault): Fault {
    HttpError(500, AnErrorOccurred(f))
  }

  // ASCII letter case, as Python's `str` methods treat the ASCII range.
  predicate IsUpper(c: char) { 'A' <= c <= 'Z' }
  predicate IsLower(c: char) { 'a' <= c <= 'z' }
  /** A cased character; outside ASCII no character counts as cased here. */
  predicate IsCased(c: char) { IsUpper(c) || IsLower(c) }

  function Upper(c: char): char { if IsLower(c) then (c as int - 32) as char else c }
  function Lower(c: char): char { if IsUpper(c) then (c as int + 32) as char else c }

  /** `s.lower()`. */
  function LowerString(s: string): (r: string)
    ensures |r| == |s| && forall i :: 0 <= i < |s| ==> r[i] == Lower(s[i])
  {
    seq(|s|, i requires 0 <= i < |s| => Lower(s[i]))
  }
}
