/** Python's number handling, left abstract: the server only ever calls
    `float(s)`, `int(s)` and `str(x)` of a float, and the model is stated
    for every choice of those three. */
module Numbers {
  import opened Outcomes
  import opened Text

  /** `parseFloat(s)` is `float(s)` and `parseInt(s)` is `int(s)`, with
      `None` where Python raises ValueError; `show(x)` is `str(x)`, which is
      always one word. */
  datatype Numerals = Numerals(
    parseFloat: string -> Option<real>,
    parseInt: string -> Option<int>,
    show: real -> Word)

  /** `is_number(s)` (server.py:24-29): `float(s)` does not raise. */
  predicate IsNumber(num: Numerals, s: string) {
    num.parseFloat(s).Some?
  }
}
