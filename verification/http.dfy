/** The responses the two handlers send, abstracted from Express: a status
    code and a body that stands for the JSON object or text that is sent. */
module Http {

  const StatusOk: nat := 200
  const StatusBadRequest: nat := 400
  const StatusServerError: nat := 500

  /** The URL route the output directory is served under. */
  const OutputRoute: string := "/output/"

  /** The URL an artifact named `name` is served at: the route, then the
      name, which can be read back from the URL. */
  function OutputUrl(name: string): (url: string)
    ensures |url| == |OutputRoute| + |name|
    ensures url[..|OutputRoute|] == OutputRoute && url[|OutputRoute|..] == name
  {
    OutputRoute + name
  }

  /** One element of the `GET /api/videos` array: `{ name, url }`. */
  datatype VideoEntry = VideoEntry(name: string, url: string)

  datatype Body =
    | VideoList(entries: seq<VideoEntry>)              // a JSON array of entries
    | ErrorMessage(error: string)                      // `{ error }`
    | PlainText(text: string)                          // `res.send(text)`
    | TrackSucceeded(videoUrl: string)                 // `{ success: true, videoUrl }`
    | TrackFailed(error: string, details: string)      // `{ success: false, error, details }`

  datatype Response = Response(status: nat, body: Body)
}
