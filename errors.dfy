/**
 * The exceptions the bot's pipeline can raise, and `str(error)`, which is what
 * the loop's failure notification writes after its prefix.
 */
module PyErrors {

  import opened PyJson

  datatype PyError =
    | ApiRequestException          // the bot's own exception, always raised without arguments
    | DecodeError(detail: string)  // `response.json()` on a body that is not JSON
    | TypeError(message: string)
    | KeyError(message: string)
    | AttributeError(typeName: string, attribute: string)
    | IndexError(message: string)

  /** The message of the `IndexError` raised by `xs[0]` on an empty list. */
  const ListIndexOutOfRange := "list index out of range"

  /** `TypeError` raised when an unhashable value is looked up in a dict. */
  function Unhashable(j: Json): PyError
  {
    TypeError("unhashable type: '" + TypeName(j) + "'")
  }

  /**
   * `str(error)`. An exception raised without arguments prints as the empty
   * string, and a `KeyError` prints the `repr` of its argument, quotes included.
   */
  function ErrorText(e: PyError): (r: string)
    ensures e.ApiRequestException? ==> r == ""
    ensures e.DecodeError? ==> r == e.detail
    ensures e.TypeError? || e.IndexError? ==> r == e.message
    ensures e.KeyError? ==>
              |r| >= 2 && r[0] == r[|r| - 1] == QuoteFor(e.message)
              && Unescape(r[1..|r| - 1]) == e.message
    ensures e.AttributeError? ==>
              r == "'" + e.typeName + "' object has no attribute '" + e.attribute + "'"
  {
    match e
    case ApiRequestException => ""
    case DecodeError(detail) => detail
    case TypeError(message) => message
    case KeyError(message) => StrRepr(message)
    case AttributeError(typeName, attribute) =>
      "'" + typeName + "' object has no attribute '" + attribute + "'"
    case IndexError(message) => message
  }
}
