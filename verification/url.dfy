/** The WHATWG URL parser is not modelled: it is an input, a total function
    from text to an optional parsed URL (`None` when `new URL(text)` throws). */
module Url {
  import opened Wrappers

  /** The components of a parsed URL that the source reads. `protocol` carries
      its trailing colon (`"https:"`). */
  datatype Url = Url(protocol: string, hostname: string, pathname: string)

  type Parser = string -> Option<Url>

  /** `new URL(text).hostname`, or `None` when the constructor throws. */
  function Hostname(parse: Parser, text: string): (r: Option<string>)
    ensures r.Some? <==> parse(text).Some?
    ensures r.Some? ==> r.value == parse(text).value.hostname
  {
    match parse(text)
    case Some(u) => Some(u.hostname)
    case None => None
  }
}
