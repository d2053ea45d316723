/** The values a table is made of, and the two collaborators the printer
    borrows from outside: the terminal display width of a string (the
    `wcwidth` library's `wcswidth`) and Python's rendering of a number with a
    precision specifier (`format(x, '.5g')`). Both are parameters of the
    model, never interpreted.
 */
module Cells {
  import opened Results

  /** A data value: text, a number (Python `int` or `float`), or any other
      object, together with what `len()` gives for it when it has a length. */
  datatype Cell = Text(text: string) | Number(value: real) | Other(length: Option<nat>)

  /** Terminal columns a string occupies, as `wcswidth` counts them (it gives
      -1 for a string holding a non-printable character). */
  type Measure = string -> int

  /** `format(x, '.' + prec)`: a number rendered with a precision specifier
      such as `'5g'`, before any padding. */
  type NumberFormat = (real, string) -> string

  /** Python's `len()` of a value. */
  function Len(c: Cell): (r: Result<nat>)
    ensures r.Ok? <==> c.Text? || (c.Other? && c.length.Some?)
    ensures c.Text? ==> r == Ok(|c.text|)
    ensures r.Err? ==> r.error == TypeError(NoLength)
  {
    match c
    case Text(s) => Ok(|s|)
    case Number(_) => Err(TypeError(NoLength))
    case Other(l) => if l.Some? then Ok(l.value) else Err(TypeError(NoLength))
  }
}
