/** How the two handlers fit together: what `POST /api/track` leaves in the
    output directory, and what `GET /api/videos` then lists. */
module Artifacts {
  import opened Wrappers
  import opened Text
  import opened Paths
  import opened Http
  import opened Catalog
  import opened Track

  /** Every generated output name passes the listing filter. */
  lemma GeneratedNameIsListable(ts: nat)
    ensures IsVideoName(OutputFilename(ts))
  {
  }

  /** Two requests get the same output name exactly when they carry the same
      timestamp: the name is a function of the timestamp alone. */
  lemma OutputFilenameInjective(a: nat, b: nat)
    ensures OutputFilename(a) == OutputFilename(b) <==> a == b
  {
    if OutputFilename(a) == OutputFilename(b) {
      var na, nb := OutputFilename(a), OutputFilename(b);
      assert na[|OutputPrefix|..|na| - |OutputExtension|] == Decimal(a);
      assert nb[|OutputPrefix|..|nb| - |OutputExtension|] == Decimal(b);
      DecimalInjective(a, b);
    }
  }

  /** The temporary input is deleted and nothing else is, whatever the exit
      code and output of the worker: two runs that created the same paths
      leave the same filesystem. */
  lemma CleanupIgnoresOutcome(serverDir: string, req: TrackRequest, ts: nat, fs: set<string>,
                              w1: WorkerOutcome, w2: WorkerOutcome)
    requires req.upload.Some?
    requires w1.written == w2.written
    ensures HandleTrack(serverDir, req, ts, fs, w1).fs == HandleTrack(serverDir, req, ts, fs, w2).fs
    ensures req.upload.value !in HandleTrack(serverDir, req, ts, fs, w1).fs
  {
  }

  /** When the upload is neither the output directory nor the output path,
      a successful job's artifact survives the cleanup, the output directory
      exists, and any read of that directory that agrees with the filesystem
      contains the artifact's name and so yields a listing entry whose URL is
      the one the track response advertised. */
  lemma SuccessfulArtifactIsListed(serverDir: string, req: TrackRequest, ts: nat, fs: set<string>,
                                   worker: WorkerOutcome)
    requires req.upload.Some? && worker.code == Some(0)
    requires Join(OutputDir(serverDir), OutputFilename(ts)) in worker.written
    requires req.upload.value != Join(OutputDir(serverDir), OutputFilename(ts))
    requires req.upload.value != OutputDir(serverDir)
    ensures var t := HandleTrack(serverDir, req, ts, fs, worker);
            && Join(OutputDir(serverDir), OutputFilename(ts)) in t.fs
            && OutputDir(serverDir) in t.fs
            && t.response.body.TrackSucceeded?
            && forall names :: ReadsDir(t.fs, OutputDir(serverDir), names) ==>
                 && OutputFilename(ts) in names
                 && var l := ListVideos(serverDir, t.fs, ReadOk(names));
                    l.response.body.VideoList? &&
                    VideoEntry(OutputFilename(ts), t.response.body.videoUrl) in l.response.body.entries
  {
    GeneratedNameIsListable(ts);
  }

  /** A failed job does not remove what the worker wrote: a partial file at
      the output path stays in the output directory (and so in later
      listings) while the response reports failure. */
  lemma FailedJobKeepsPartialOutput(serverDir: string, req: TrackRequest, ts: nat, fs: set<string>,
                                    worker: WorkerOutcome)
    requires req.upload.Some? && worker.code != Some(0)
    requires Join(OutputDir(serverDir), OutputFilename(ts)) in worker.written
    requires req.upload.value != Join(OutputDir(serverDir), OutputFilename(ts))
    ensures var t := HandleTrack(serverDir, req, ts, fs, worker);
            && Join(OutputDir(serverDir), OutputFilename(ts)) in t.fs
            && t.response.status == StatusServerError
            && t.response.body.TrackFailed?
  {
  }
}
