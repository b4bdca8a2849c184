/** The player-library and platform values that the license callback builds
    and receives: URIs, the description of an HTTP request handed to a data
    source, and what one attempt to read a response can end in. */
module Upstream {
  import opened Wrappers

  type Byte = bv8
  type Bytes = seq<Byte>

  /** A parsed URI, kept as the text it was parsed from. */
  datatype Uri = Uri(text: string)

  /** The empty URI (`Uri.EMPTY`). */
  const EmptyUri: Uri := Uri("")

  /** `TextUtils.isEmpty`: a null or zero-length string. */
  predicate IsEmpty(s: Option<string>)
  {
    s.None? || s.value == ""
  }

  /** The request methods a data specification can carry. */
  datatype HttpMethod = Get | Post | Head

  /** The flag that lets the data source accept a gzip-compressed response. */
  const FlagAllowGzip: int := 1

  /** A data specification: what a data source is asked to open. */
  datatype DataSpec = DataSpec(
    uri: Uri,
    httpMethod: HttpMethod,
    httpBody: Option<Bytes>,
    httpRequestHeaders: map<string, string>,
    flags: int)

  /** `new DataSpec.Builder().setUri(uri).build()`: the builder's defaults are
      a GET request with no body, no headers and no flags. */
  function SpecForUri(uri: Uri): DataSpec
  {
    DataSpec(uri, Get, None, map[], 0)
  }

  /** The transport's own exception, opaque to the callback. */
  datatype TransportError = TransportError(description: string)

  /** How one pass over a freshly opened input stream ends. A failure also
      reports what the data source observed: the last URI it opened, the
      response headers so far and the number of bytes read so far. */
  datatype Attempt =
    | Delivered(body: Bytes)
    | InvalidResponseCode(responseCode: int)
    | Failed(error: TransportError, lastOpenedUri: Uri,
             responseHeaders: map<string, seq<string>>, bytesRead: nat)
}
