/** The input guard of the custom caffeine entry form. */
module CustomEntry {
  import opened Wrappers
  import opened Text

  const MaxCustomAmount := 1000

  datatype Rejection = MissingName | InvalidAmount

  datatype Entry = Entry(name: string, amount: int)

  /**
   * `addCustomCaffeine`'s checks, name first: the trimmed name must not be
   * empty, and the parsed amount must be a number that is neither 0 nor
   * outside 0..1000, so in effect 1..1000.
   */
  function ValidateCustomEntry(rawName: string, parsedAmount: Option<int>): (r: Result<Entry, Rejection>)
    ensures r == Err(MissingName) <==> AllWhitespace(rawName)
    ensures r.Ok? <==>
      !AllWhitespace(rawName) && parsedAmount.Some? && 1 <= parsedAmount.value <= MaxCustomAmount
    ensures r.Ok? ==> r.value.name != [] && r.value.name == Trim(rawName) && Some(r.value.amount) == parsedAmount
  {
    var name := Trim(rawName);
    if name == [] then
      Err(MissingName)
    else if parsedAmount.None? || parsedAmount.value == 0 || parsedAmount.value < 0 || parsedAmount.value > MaxCustomAmount then
      Err(InvalidAmount)
    else
      Ok(Entry(name, parsedAmount.value))
  }
}
