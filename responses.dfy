/**
 * The Rack responses the server returns: a status, the headers, and a body. A
 * streaming response has an empty body here; what is streamed afterwards is
 * recorded on the connection.
 */
module Responses {
  datatype Response = Response(status: int, headers: seq<(string, string)>, body: string)

  /** `plain_response` of lib/redisse/server/responses.rb: a text/plain body naming the status. */
  function Plain(status: int, text: string): Response {
    Response(status, [("Content-Type", "text/plain")], text)
  }

  const NotAcceptable := Plain(406,
    "406 Not Acceptable\nThis resource can only be represented as text/event-stream.\n")
  const NotFound := Plain(404, "404 Not Found\n")
  const ServiceUnavailable := Plain(503, "503 Service Unavailable\n")

  /** The headers of the event stream: its media type, no caching and no proxy buffering. */
  const StreamHeaders := [("Content-Type", "text/event-stream"), ("Cache-Control", "no-cache"),
                          ("X-Accel-Buffering", "no")]
  const Streaming := Response(200, StreamHeaders, "")
}
