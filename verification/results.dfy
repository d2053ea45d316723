/** Failure-compatible wrappers shared by the whole model.

    The printer signals every problem by raising a Python exception; the model
    returns `Err` with the exception's kind and message instead, so that every
    error path is an ordinary value a contract can talk about.
 */
module Results {

  /** The Python exceptions the table printer can raise. */
  datatype Error =
    | KeyError(key: string)           // `STYLES[name]` for an unknown style name
    | AssertionError(message: string) // a failed `assert` in the printer
    | ValueError(message: string)     // a rejected cell, format specifier or duration
    | TypeError(message: string)      // `len()` of a value that has no length, iterating `None`
    | IndexError(message: string)     // `data[0]` of an empty table

  /** Message of the width/column-count assertion in `parse_width`. */
  const WidthsMismatch := "Widths and data do not match"

  /** Message of the format specifier assertion in `row`. */
  const FormatSpecNotStringOrList := "format_spec must be a string or list of strings"

  /** Message `row` raises for a cell that is neither text nor a number. */
  const BadElement := "Elements in the values array must be strings, ints, or floats"

  /** Message `humantime` raises when its argument is not numeric. */
  const NotNumeric := "Input must be numeric"

  /** What `str.format` reports for a negative field width in a string field. */
  const SignNotAllowed := "Sign not allowed in string format specifier"

  /** What `str.format` reports for a fill text it cannot parse. */
  const InvalidFormatSpecifier := "Invalid format specifier"

  /** What `len()` reports for a value without a length. */
  const NoLength := "object has no len()"

  /** What iterating `None` reports. */
  const NoneNotIterable := "'NoneType' object is not iterable"

  /** What indexing an empty list reports. */
  const IndexOutOfRange := "list index out of range"

  datatype Option<+T> = None | Some(value: T)

  /** Either a value or the exception the source raises instead. */
  datatype Result<+T> = Ok(value: T) | Err(error: Error) {

    predicate IsFailure() {
      Err?
    }

    function PropagateFailure<U>(): Result<U>
      requires Err?
    {
      Err(error)
    }

    function Extract(): T
      requires Ok?
    {
      value
    }
  }

  /** A list built by evaluating its items in order, as a comprehension or
      `map` does: every value when nothing fails, else the error of the
      first item that fails. */
  function Collect<T>(rs: seq<Result<T>>): (r: Result<seq<T>>)
    ensures r.Ok? <==> forall i :: 0 <= i < |rs| ==> rs[i].Ok?
    ensures r.Ok? ==> |r.value| == |rs| && forall i :: 0 <= i < |rs| ==> rs[i] == Ok(r.value[i])
    decreases |rs|
  {
    if |rs| == 0 then Ok([])
    else
      var first :- rs[0];
      var rest :- Collect(rs[1..]);
      assert forall i :: 0 < i < |rs| ==> rs[i] == rs[1..][i - 1];
      Ok([first] + rest)
  }

  /** The item whose error a failing collection raises: every item before
      it succeeds. */
  lemma {:induction false} FirstFailure<T>(rs: seq<Result<T>>, e: Error) returns (k: nat)
    requires Collect(rs) == Err(e)
    ensures k < |rs|
    ensures forall j :: 0 <= j < k ==> rs[j].Ok?
    ensures rs[k] == Err(e)
    decreases |rs|
  {
    if rs[0].Err? {
      k := 0;
    } else {
      var rest := rs[1..];
      var i := FirstFailure(rest, e);
      k := i + 1;
      forall j | 0 < j < k
        ensures rs[j].Ok?
      {
        assert rs[j] == rest[j - 1];
      }
      assert rs[k] == rest[i];
    }
  }

  /** The error of a failing collection is the error of one of its items. */
  lemma FailureFromItem<T>(rs: seq<Result<T>>, e: Error)
    requires Collect(rs) == Err(e)
    ensures exists k :: 0 <= k < |rs| && rs[k] == Err(e)
  {
    var k := FirstFailure(rs, e);
  }
}
