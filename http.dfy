/** What the screens get back from the backend. The requests themselves are not modelled:
    each handler receives, as a parameter, the outcome its axios call came back with. */
module Http {

  import opened Wrappers
  import opened Decimal

  /** An axios outcome: a `Response` with its HTTP status and the part of `response.data` the
      screen reads, or a `Thrown` error carrying `error.response.status` when the server answered. */
  datatype Reply<T> = Response(status: int, body: T) | Thrown(errorStatus: Option<int>)

  /** The `code` member of a response envelope as JSON delivered it: a number, a string, or absent. */
  datatype Code = NumCode(n: int) | StrCode(s: string) | NoCode

  /** `code == n`: a string is first converted to a number. */
  predicate LooselyEquals(code: Code, n: int) {
    match code
    case NumCode(m) => m == n
    case StrCode(s) => StringToInteger(s) == Some(n)
    case NoCode => false
  }

  /** `code === s`: only a string with exactly those characters. */
  predicate StrictlyEqualsString(code: Code, s: string) {
    code == StrCode(s)
  }
}
