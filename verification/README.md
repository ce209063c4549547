# Video-tracking server: request handlers

A Dafny model of the two request handlers of the video-tracking web server
(`server/server.js`), with all I/O turned into values:

- **`GET /api/videos`**, the artifact listing (module `Catalog`). The
  filesystem is a set of paths. Reading the output directory is an input
  value, `ReadFailed` or `ReadOk(names)`, because the order of `fs.readdir`
  comes from the operating system. If the output directory is missing, the
  handler creates it and answers with an empty list. A read error gives 500
  `{ error: 'Could not list files' }`. Otherwise the names ending in `.mp4`
  or `.webm` become `{ name, url: "/output/" + name }` entries, in the order
  they were read.
- **`POST /api/track`**, one tracking job (module `Track`). A request with
  no upload gets 400 `No video uploaded.`. Otherwise the output name is
  `tracked_<timestamp>.mp4`, where the timestamp is a parameter standing for
  `Date.now()`. The output directory is created if it is missing. The worker
  is started as `python tracker.py <input> <output> <conf> <class> <occlusion>`
  in `<server dir>/yolov9`. The worker itself is opaque and is given as a
  value: its exit code (`None` when a signal killed it), its stdout and stderr
  chunks in arrival order, and the paths it created. On `close`, the handler
  deletes the temporary upload. It answers `{ success: true, videoUrl }` exactly
  when the exit code is 0. Otherwise it answers 500 with the concatenated
  stdout chunks as `details`; stderr chunks are never kept.
- Module `Artifacts` holds lemmas that connect the two handlers. Module
  `Text` holds suffix tests and the decimal rendering of the timestamp.
  Module `Paths` holds the server's directories and `path.join`. Module
  `Http` holds the response shapes.

The code has no parameter-derived names, concurrency bound, timeout, upload
or parameter validation, or traversal check, and none is modelled. It lists
artifacts in directory order, not newest first. It does not remove a partial
output file when the worker fails (see `Artifacts.FailedJobKeepsPartialOutput`).

## Model

| member | source | states |
|---|---|---|
| `Catalog.ListVideos` | server/server.js:14-39 | the output directory exists afterwards and nothing else changes; if it was missing, the answer is 200 with an empty list; a read error is 500 `Could not list files`; otherwise the answer is 200 with exactly the entries `{name, "/output/"+name}` for the video names read, no more of them than names read, and their names are the filtered read in order; when the read agrees with the filesystem, a video name is listed if and only if its path exists in the output directory |
| `Catalog.IsVideoName` | server/server.js:31 | a name passes the filter when it ends in `.mp4` or `.webm`, and then ends with exactly one of the two |
| `Http.OutputUrl` | server/server.js:32-35 | the URL is `/output/` followed by the name, and the name can be read back from the URL |
| `Paths.Join` | server/server.js:57 | the joined path is the directory, one separator and the name, and both parts can be read back |
| `Paths.OutputDir` | server/server.js:12 | `OUTPUT_DIR` is the server directory joined with `output`, its last component |
| `Paths.WorkerDir` | server/server.js:78 | the worker's working directory has last component `yolov9` and differs from `OUTPUT_DIR` |
| `Track.WorkerInvocation` | server/server.js:68-79 | six arguments: the upload path second, the output path third, then confidence threshold, tracking class and occlusion time in that order; the working directory is not `OUTPUT_DIR` |
| `Track.StdoutLog` | server/server.js:81-92 | `pythonOutput`: a stream of only stderr chunks leaves it empty, and a first chunk on stdout begins it |
| `Catalog.FilterVideos` | server/server.js:30-31 | the filtered list is never longer than the directory read |
| `Catalog.FilterVideosMembers` | server/server.js:30-31 | a name is kept if and only if it was read and ends in `.mp4` or `.webm` |
| `Catalog.FilterVideosAppend` | server/server.js:30-31 | filtering a concatenation is the concatenation of the filtered parts, so relative order is preserved |
| `Catalog.FilterVideosStep` | server/server.js:30-31 | filtering one more name appends it exactly when it is a video name |
| `Catalog.FilterVideosIdempotent` | server/server.js:30-31 | filtering an already-filtered list changes nothing |
| `Catalog.ToEntries` | server/server.js:32-35 | one entry per name, in order, with `name` the file name and `url` equal to `"/output/" + name` |
| `Catalog.SelectVideos` | server/server.js:30-31 | one pass returns the filter together with the read positions it kept; the positions strictly increase, each kept name is the name read there, and a position is kept if and only if its name is a video name |
| `Text.Decimal` | server/server.js:54 | the rendered timestamp is a non-empty string of digits; it starts with `0` only when it is exactly `"0"` for timestamp 0 |
| `Text.ParseDecimalOfDecimal` | server/server.js:54 | reading a rendered timestamp back gives the timestamp |
| `Text.DecimalInjective` | server/server.js:54 | two timestamps render the same if and only if they are equal |
| `Paths.BaseName` | server/server.js:57 | the last path component contains no separator, ends the path, and is the whole path or is preceded by a separator, so it is the entire last component |
| `Paths.BaseNameOfJoin` | server/server.js:57 | joining a file name onto `OUTPUT_DIR` and taking the last component gives the file name back |
| `Track.OutputFilename` | server/server.js:54 | the generated name starts with `tracked_`, ends with `.mp4`, contains no separator, and between them has only digits whose value is the timestamp |
| `Track.StartTrack` | server/server.js:41-79 | no upload gives 400 `No video uploaded.` and nothing else happens; an upload yields a job whose output name is `tracked_<ts>.mp4` and starts `python` in `<server dir>/yolov9` with exactly `[tracker.py, input, OUTPUT_DIR/name, conf, class, occlusion]`, and the output directory exists afterwards |
| `Track.StdoutLogAppend` | server/server.js:81-86 | the log of two runs of chunks is the first run's log followed by the second's |
| `Track.StdoutLogged` | server/server.js:82-86 | a stdout chunk contributes its data at its arrival position in the log |
| `Track.StderrNeverLogged` | server/server.js:88-92 | a stderr chunk anywhere in the stream leaves the log unchanged |
| `Track.OnClose` | server/server.js:94-115 | the temporary input is absent afterwards and no other path is removed; the answer is a success with `videoUrl = "/output/" + name` if and only if the exit code is exactly 0 (a null code included among failures); otherwise it is 500 `Tracking process failed.` with the stdout log as `details` |
| `Track.HandleTrack` | server/server.js:41-116 | the whole request: no upload gives 400 with the filesystem unchanged and no worker started; otherwise exactly one worker invocation, the final filesystem is the start plus the output directory plus what the worker created, minus the upload, and success holds if and only if the exit code is 0 |
| `Track.AdvertisedUrlNamesWorkerOutput` | server/server.js:54-57 | on success, the advertised URL (line 105) names the last component of the output path the worker was given |
| `Artifacts.GeneratedNameIsListable` | server/server.js:54 | every generated output name passes the listing filter of line 31 |
| `Artifacts.OutputFilenameInjective` | server/server.js:54 | two requests get the same output name if and only if their timestamps are equal |
| `Artifacts.CleanupIgnoresOutcome` | server/server.js:97-100 | the final filesystem does not depend on the exit code or the output streams, and the upload is always gone |
| `Artifacts.SuccessfulArtifactIsListed` | server/server.js:102-106 | after a successful job whose worker wrote the output path, the artifact and the output directory exist, every directory read that agrees with the filesystem contains the artifact name, and the listing holds the entry whose URL the track response advertised |
| `Artifacts.FailedJobKeepsPartialOutput` | server/server.js:97-113 | a failed job removes only the upload: a file the worker wrote at the output path stays, and the answer is 500 |

## Left out

- Express, multer and cors wiring, the static `/output` route (line 118) and `app.listen`: framework plumbing. The handlers are functions that return a response value.
- Process execution: the worker is an input value (exit code, chunks, created paths). The model does not cover a worker that deletes files. Nor does it cover a spawn failure: the child has no `error` listener, so in Node that failure is an uncaught exception outside the handlers' logic.
- Console logging (lines 16-17, 26, 63-65, 85, 90, 95): it has no effect on responses or files.
- `Date.now()`: the timestamp is a parameter. Two concurrent requests in the same millisecond would share an output name. Request concurrency and the event loop are not modelled.
- `path.resolve` of the upload path (line 46): the upload carries its already-resolved path. `path.join` is modelled as joining with one `/`, without normalisation.
- `data.toString()` on stream chunks: chunks are strings already. UTF-8 decoding of a character split across two chunks is not modelled.
- Missing form fields: the three form fields are strings. A field the client did not send would be `undefined` in the source.
- Catalog.ListVideos: does not model `mkdirSync` throwing at line 20, for example on permission denied. Express would then answer its default 500; the model always answers 200 with an empty list when the directory was missing.
- Track.HandleTrack: does not model synchronous throws before the `close` listener exists. These are `mkdirSync` failing at line 60 and `spawn` throwing at line 68, for example on a NUL character in a form field. Express would then answer its default 500, no worker would run, and the upload would never be deleted. The model starts the worker and removes the upload on every request that has one.
- `mkdirSync({ recursive: true })` creating parent directories: only the output directory itself is added. The race between `existsSync` and `readdir`, and `unlinkSync` throwing (for example on a directory), are not modelled.
- Hardening the code does not have (a concurrency bound, timeouts, parameter-derived names, upload or parameter validation, traversal checks, newest-first ordering): none is modelled.
- `client/src/App.jsx`: the presentation layer, including its MIME-type check, list reversal and number formatting.
