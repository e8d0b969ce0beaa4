/** The parts of net/http the client touches: header maps, requests and response status lines. */
module Http {
  import opened Wrappers

  /** http.Header: canonical key to its list of values. */
  type Header = map<string, seq<string>>

  const Authorization: string := "Authorization"
  const ContentType: string := "Content-Type"
  const ApplicationJson: string := "application/json"

  /** Header.Get: the first value stored under the key, or "" when there is none. */
  function Get(h: Header, key: string): (v: string)
    ensures key !in h || h[key] == [] ==> v == ""
    ensures key in h && h[key] != [] ==> v == h[key][0]
    ensures v != "" ==> key in h && v in h[key]
  {
    if key in h && |h[key]| > 0 then h[key][0] else ""
  }

  /** Header.Set: the key's values become exactly [value]; every other key is untouched. */
  function Set(h: Header, key: string, value: string): (r: Header)
    ensures key in r && r[key] == [value] && Get(r, key) == value
    ensures r - {key} == h - {key}
  {
    h[key := [value]]
  }

  /** The fields of an outgoing http.Request the model follows. */
  datatype Request = Request(verb: string, url: string, header: Header, body: Option<string>)

  /** The status line of an http.Response: StatusCode and the Status text (e.g. "404 Not Found"). */
  datatype HttpResponse = HttpResponse(statusCode: int, status: string)
}
