/** `POST /api/track`: one upload, one run of the external tracking worker,
    one response. The worker is opaque: the model is given its exit code, the
    chunks it wrote to its two output streams in arrival order, and the paths
    it created while it ran. */
module Track {
  import opened Wrappers
  import opened Text
  import opened Paths
  import opened Http

  /** The multipart request: the temporary path of the uploaded `video` file
      (already made absolute), if one was uploaded, and the three form fields
      as the strings they arrive as. */
  datatype TrackRequest = TrackRequest(
    upload: Option<string>,
    trackingClass: string,
    confThreshold: string,
    occludeTime: string)

  /** A process start: program, argument list, working directory. */
  datatype Invocation = Invocation(program: string, args: seq<string>, cwd: string)

  /** One `data` event of the worker's standard output or standard error. */
  datatype Chunk = Stdout(data: string) | Stderr(data: string)

  /** What the worker did: its exit code (`None` when it was ended by a
      signal), its output in arrival order, and the paths it created. */
  datatype WorkerOutcome = WorkerOutcome(code: Option<int>, chunks: seq<Chunk>, written: set<string>)

  /** A request accepted for processing. */
  datatype Job = Job(inputPath: string, outputFilename: string, outputPath: string, invocation: Invocation)

  /** The handler before the worker runs: either the request is answered at
      once, or a job is started and the filesystem is as it then is. */
  datatype Start = Rejected(response: Response) | Started(job: Job, fs: set<string>)

  /** The `close` handler's effect: the response and the filesystem after it. */
  datatype Closed = Closed(response: Response, fs: set<string>)

  /** The whole request: the response, the final filesystem, and the worker
      invocation if there was one. */
  datatype TrackResult = TrackResult(response: Response, fs: set<string>, invoked: Option<Invocation>)

  const NoUploadMessage: string := "No video uploaded."
  const FailureMessage: string := "Tracking process failed."
  const WorkerProgram: string := "python"
  const WorkerScript: string := "tracker.py"
  const OutputPrefix: string := "tracked_"
  const OutputExtension: string := ".mp4"

  /** `tracked_${Date.now()}.mp4`, for the timestamp `ts`. */
  function OutputFilename(ts: nat): (name: string)
    ensures Separator !in name
    ensures StartsWith(name, OutputPrefix) && EndsWith(name, OutputExtension)
    ensures |name| > |OutputPrefix| + |OutputExtension|
    ensures AllDigits(name[|OutputPrefix|..|name| - |OutputExtension|])
    ensures ParseDecimal(name[|OutputPrefix|..|name| - |OutputExtension|]) == ts
  {
    var digits := Decimal(ts);
    var name := OutputPrefix + digits + OutputExtension;
    assert name[|OutputPrefix|..|name| - |OutputExtension|] == digits;
    ParseDecimalOfDecimal(ts);
    assert forall i :: 0 <= i < |digits| ==> digits[i] != Separator;
    name
  }

  /** The worker's argument contract: script, input path, output path,
      confidence threshold, tracking class, occlusion time, in that order;
      run from the worker directory. */
  function WorkerInvocation(serverDir: string, inputPath: string, outputPath: string, req: TrackRequest): (inv: Invocation)
    ensures |inv.args| == 6
    ensures inv.args[1] == inputPath && inv.args[2] == outputPath
    ensures inv.args[3..] == [req.confThreshold, req.trackingClass, req.occludeTime]
    ensures inv.cwd != OutputDir(serverDir)
  {
    Invocation(WorkerProgram,
               [WorkerScript, inputPath, outputPath, req.confThreshold, req.trackingClass, req.occludeTime],
               WorkerDir(serverDir))
  }

  /** The handler up to the spawn: a request without an upload is answered 400
      and nothing else happens; otherwise the output name is generated from
      the timestamp, the output directory is created if missing, and the
      worker is started on the uploaded file and the output path. */
  function StartTrack(serverDir: string, req: TrackRequest, ts: nat, fs: set<string>): (s: Start)
    ensures s.Rejected? <==> req.upload.None?
    ensures s.Rejected? ==> s.response == Response(StatusBadRequest, PlainText(NoUploadMessage))
    ensures s.Started? ==>
              && s.fs == fs + {OutputDir(serverDir)}
              && s.job.inputPath == req.upload.value
              && s.job.outputFilename == OutputFilename(ts)
              && s.job.outputPath == Join(OutputDir(serverDir), s.job.outputFilename)
              && s.job.invocation.program == WorkerProgram
              && s.job.invocation.cwd == WorkerDir(serverDir)
              && s.job.invocation.args ==
                   [WorkerScript, s.job.inputPath, s.job.outputPath,
                    req.confThreshold, req.trackingClass, req.occludeTime]
  {
    match req.upload
    case None => Rejected(Response(StatusBadRequest, PlainText(NoUploadMessage)))
    case Some(inputPath) =>
      var outputFilename := OutputFilename(ts);
      var outputPath := Join(OutputDir(serverDir), outputFilename);
      var fs' := if OutputDir(serverDir) in fs then fs else fs + {OutputDir(serverDir)};
      Started(Job(inputPath, outputFilename, outputPath,
                  WorkerInvocation(serverDir, inputPath, outputPath, req)),
              fs')
  }

  /** `pythonOutput`: the standard-output chunks concatenated in arrival
      order; standard-error chunks are not kept. */
  function StdoutLog(chunks: seq<Chunk>): (log: string)
    ensures (forall i :: 0 <= i < |chunks| ==> chunks[i].Stderr?) ==> log == ""
    ensures |chunks| > 0 && chunks[0].Stdout? ==> StartsWith(log, chunks[0].data)
  {
    if |chunks| == 0 then ""
    else StdoutLog(chunks[..|chunks| - 1]) +
         (match chunks[|chunks| - 1] case Stdout(d) => d case Stderr(_) => "")
  }

  /** The log of two runs of chunks is the log of the first followed by the
      log of the second. */
  lemma {:induction false} StdoutLogAppend(a: seq<Chunk>, b: seq<Chunk>)
    ensures StdoutLog(a + b) == StdoutLog(a) + StdoutLog(b)
    decreases |b|
  {
    if |b| > 0 {
      var b' := b[..|b| - 1];
      assert (a + b)[..|a + b| - 1] == a + b';
      StdoutLogAppend(a, b');
    } else {
      assert a + b == a;
    }
  }

  /** A standard-error chunk, wherever it arrives, leaves the log unchanged. */
  lemma StderrNeverLogged(before: seq<Chunk>, data: string, after: seq<Chunk>)
    ensures StdoutLog(before + [Stderr(data)] + after) == StdoutLog(before + after)
  {
    StdoutLogAppend(before + [Stderr(data)], after);
    StdoutLogAppend(before, [Stderr(data)]);
    StdoutLogAppend(before, after);
    assert [Stderr(data)][..0] == [];
  }

  /** A standard-output chunk, wherever it arrives, contributes its data at
      that point of the log. */
  lemma StdoutLogged(before: seq<Chunk>, data: string, after: seq<Chunk>)
    ensures StdoutLog(before + [Stdout(data)] + after) == StdoutLog(before) + data + StdoutLog(after)
  {
    StdoutLogAppend(before + [Stdout(data)], after);
    StdoutLogAppend(before, [Stdout(data)]);
    assert [Stdout(data)][..0] == [];
  }

  /** The `close` handler: the temporary input is deleted if it exists, then
      the answer is a success naming the artifact's URL when the exit code is
      exactly 0, and otherwise a 500 carrying the standard-output log. */
  function OnClose(job: Job, fs: set<string>, code: Option<int>, chunks: seq<Chunk>): (r: Closed)
    ensures job.inputPath !in r.fs
    ensures forall p :: p in fs && p != job.inputPath ==> p in r.fs
    ensures r.fs <= fs
    ensures r.response.body.TrackSucceeded? <==> code == Some(0)
    ensures r.response.status == StatusOk <==> code == Some(0)
    ensures code == Some(0) ==> r.response.body.videoUrl == OutputUrl(job.outputFilename)
    ensures code != Some(0) ==>
              r.response == Response(StatusServerError, TrackFailed(FailureMessage, StdoutLog(chunks)))
  {
    var fs' := if job.inputPath in fs then fs - {job.inputPath} else fs;
    if code == Some(0) then
      Closed(Response(StatusOk, TrackSucceeded(OutputUrl(job.outputFilename))), fs')
    else
      Closed(Response(StatusServerError, TrackFailed(FailureMessage, StdoutLog(chunks))), fs')
  }

  /** The whole handler, with the worker's run in between the spawn and the
      `close` event. */
  function HandleTrack(serverDir: string, req: TrackRequest, ts: nat, fs: set<string>, worker: WorkerOutcome): (r: TrackResult)
    ensures req.upload.None? ==>
              && r.response == Response(StatusBadRequest, PlainText(NoUploadMessage))
              && r.fs == fs
              && r.invoked.None?
    ensures req.upload.Some? ==>
              && r.invoked == Some(WorkerInvocation(serverDir, req.upload.value,
                                                    Join(OutputDir(serverDir), OutputFilename(ts)), req))
              && req.upload.value !in r.fs
              && r.fs == (fs + {OutputDir(serverDir)} + worker.written) - {req.upload.value}
              && (r.response.body.TrackSucceeded? <==> worker.code == Some(0))
              && (worker.code == Some(0) ==>
                    r.response == Response(StatusOk, TrackSucceeded(OutputUrl(OutputFilename(ts)))))
              && (worker.code != Some(0) ==>
                    r.response == Response(StatusServerError, TrackFailed(FailureMessage, StdoutLog(worker.chunks))))
  {
    match StartTrack(serverDir, req, ts, fs)
    case Rejected(response) => TrackResult(response, fs, None)
    case Started(job, fs') =>
      var closed := OnClose(job, fs' + worker.written, worker.code, worker.chunks);
      TrackResult(closed.response, closed.fs, Some(job.invocation))
  }

  /** The URL the response advertises names the file the worker was told to
      write: the last component of the output-path argument. */
  lemma AdvertisedUrlNamesWorkerOutput(serverDir: string, req: TrackRequest, ts: nat, fs: set<string>, worker: WorkerOutcome)
    requires req.upload.Some? && worker.code == Some(0)
    ensures var r := HandleTrack(serverDir, req, ts, fs, worker);
            r.response.body.TrackSucceeded? &&
            r.response.body.videoUrl == OutputUrl(BaseName(r.invoked.value.args[2]))
  {
    BaseNameOfJoin(OutputDir(serverDir), OutputFilename(ts));
  }
}
