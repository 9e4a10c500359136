/** Validation of a row read from the database against its model class. */
module Validation {
  import opened Wrappers
  import opened Errors
  import opened Strings

  const ValidationFailedPrefix := "Model validation failed: "

  /**
   * `getValidatedDatabaseRecord`: the document as an instance of its model when the validator
   * reports no error; otherwise an Error listing the reported errors, comma-separated.
   * `errors` are the validator's findings for `document`, already rendered as text.
   */
  function ValidatedRecord<T>(document: T, errors: seq<string>): (r: Result<T, Exception>)
    ensures r.Success? <==> |errors| == 0
    ensures r.Success? ==> r.value == document
    ensures r.Failure? ==> r.error == Error(ValidationFailedPrefix + Join(errors, ','))
  {
    if |errors| > 0 then Failure(Error(ValidationFailedPrefix + Join(errors, ',')))
    else Success(document)
  }
}
