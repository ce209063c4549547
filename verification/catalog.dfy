/** `GET /api/videos`: the listing of produced artifacts. The filesystem is the
    set of paths that exist; reading the output directory is an outcome given
    to the handler, since the order of `fs.readdir` is the operating system's. */
module Catalog {
  import opened Text
  import opened Paths
  import opened Http

  /** The outcome of `fs.readdir(OUTPUT_DIR)`. */
  datatype ReadResult = ReadFailed | ReadOk(names: seq<string>)

  /** The response together with the filesystem after the handler ran. */
  datatype Listing = Listing(response: Response, fs: set<string>)

  const ListErrorMessage: string := "Could not list files"

  /** The listing filter: names ending in `.mp4` or `.webm`. A name that
      passes ends with exactly one of the two. */
  predicate IsVideoName(name: string)
    ensures IsVideoName(name) ==> |name| >= 4 && EndsWith(name, ".mp4") != EndsWith(name, ".webm")
  {
    assert EndsWith(name, ".mp4") ==> name[|name| - 1] == '4';
    assert EndsWith(name, ".webm") ==> name[|name| - 1] == 'm';
    EndsWith(name, ".mp4") || EndsWith(name, ".webm")
  }

  /** A read of `dir` agrees with the filesystem: it yields exactly the names
      of the paths directly inside `dir`, in some order. */
  ghost predicate ReadsDir(fs: set<string>, dir: string, names: seq<string>) {
    forall n :: n in names <==> Separator !in n && Join(dir, n) in fs
  }

  /** `files.filter(IsVideoName)`. */
  function FilterVideos(names: seq<string>): (r: seq<string>)
    ensures |r| <= |names|
  {
    if |names| == 0 then []
    else (if IsVideoName(names[0]) then [names[0]] else []) + FilterVideos(names[1..])
  }

  /** The filter keeps exactly the names that are videos. */
  lemma {:induction false} FilterVideosMembers(names: seq<string>)
    ensures forall x :: x in FilterVideos(names) <==> x in names && IsVideoName(x)
    decreases |names|
  {
    if |names| > 0 {
      FilterVideosMembers(names[1..]);
      assert names == [names[0]] + names[1..];
    }
  }

  /** Filtering a concatenation filters each part and keeps the parts in order. */
  lemma {:induction false} FilterVideosAppend(a: seq<string>, b: seq<string>)
    ensures FilterVideos(a + b) == FilterVideos(a) + FilterVideos(b)
    decreases |a|
  {
    if |a| > 0 {
      assert (a + b)[1..] == a[1..] + b;
      FilterVideosAppend(a[1..], b);
    } else {
      assert a + b == b;
    }
  }

  /** Filtering what is already filtered changes nothing. */
  lemma {:induction false} FilterVideosIdempotent(names: seq<string>)
    ensures FilterVideos(FilterVideos(names)) == FilterVideos(names)
    decreases |names|
  {
    if |names| > 0 {
      var head := if IsVideoName(names[0]) then [names[0]] else [];
      FilterVideosAppend(head, FilterVideos(names[1..]));
      FilterVideosIdempotent(names[1..]);
      if IsVideoName(names[0]) {
        assert FilterVideos(head) == head by {
          assert head[1..] == [];
        }
      }
    }
  }

  /** `{ name: file, url: `/output/${file}` }` */
  function ToEntry(name: string): VideoEntry {
    VideoEntry(name, OutputUrl(name))
  }

  /** `.map(ToEntry)` */
  function ToEntries(names: seq<string>): (r: seq<VideoEntry>)
    ensures |r| == |names|
    ensures forall i :: 0 <= i < |r| ==> r[i].name == names[i]
    ensures forall i :: 0 <= i < |r| ==> r[i].url == OutputUrl(r[i].name)
  {
    seq(|names|, i requires 0 <= i < |names| => ToEntry(names[i]))
  }

  /** The names an entry list advertises. */
  function EntryNames(entries: seq<VideoEntry>): (r: seq<string>)
    ensures |r| == |entries|
    ensures forall i :: 0 <= i < |r| ==> r[i] == entries[i].name
  {
    seq(|entries|, i requires 0 <= i < |entries| => entries[i].name)
  }

  /** The listing handler. A missing output directory is created and the
      listing is empty; a read error is a 500; otherwise every video name
      that was read becomes an entry, in the order it was read. */
  function ListVideos(serverDir: string, fs: set<string>, read: ReadResult): (r: Listing)
    ensures r.fs == fs + {OutputDir(serverDir)}
    ensures OutputDir(serverDir) !in fs ==> r.response == Response(StatusOk, VideoList([]))
    ensures OutputDir(serverDir) in fs && read.ReadFailed? ==>
              r.response == Response(StatusServerError, ErrorMessage(ListErrorMessage))
    ensures OutputDir(serverDir) in fs && read.ReadOk? ==>
              && r.response.status == StatusOk
              && r.response.body.VideoList?
              && |r.response.body.entries| <= |read.names|
              && EntryNames(r.response.body.entries) == FilterVideos(read.names)
              && (forall e :: e in r.response.body.entries <==>
                                e.name in read.names && IsVideoName(e.name) && e.url == OutputUrl(e.name))
    ensures OutputDir(serverDir) in fs && read.ReadOk? && ReadsDir(fs, OutputDir(serverDir), read.names) ==>
              && r.response.body.VideoList?
              && (forall n :: IsVideoName(n) && Separator !in n ==>
                                (ToEntry(n) in r.response.body.entries <==> Join(OutputDir(serverDir), n) in fs))
  {
    var dir := OutputDir(serverDir);
    if dir !in fs then
      Listing(Response(StatusOk, VideoList([])), fs + {dir})
    else
      match read
      case ReadFailed =>
        Listing(Response(StatusServerError, ErrorMessage(ListErrorMessage)), fs)
      case ReadOk(names) =>
        var videos := FilterVideos(names);
        FilterVideosMembers(names);
        var entries := ToEntries(videos);
        assert EntryNames(entries) == videos;
        assert forall e :: e in entries ==> e.name in videos by {
          forall e | e in entries ensures e.name in videos {
            var i :| 0 <= i < |entries| && entries[i] == e;
            assert e.name == videos[i];
          }
        }
        assert forall n :: n in videos ==> ToEntry(n) in entries by {
          forall n | n in videos ensures ToEntry(n) in entries {
            var i :| 0 <= i < |videos| && videos[i] == n;
            assert entries[i] == ToEntry(n);
          }
        }
        Listing(Response(StatusOk, VideoList(entries)), fs)
  }

  /** Filtering one more name of a read extends the filter of the names before it. */
  lemma FilterVideosStep(names: seq<string>, i: nat)
    requires i < |names|
    ensures FilterVideos(names[..i + 1]) ==
              FilterVideos(names[..i]) + (if IsVideoName(names[i]) then [names[i]] else [])
  {
    assert names[..i + 1] == names[..i] + [names[i]];
    FilterVideosAppend(names[..i], [names[i]]);
    assert [names[i]][1..] == [];
  }

  /** `videos` and `positions` are the filter of the first `n` names read and
      the positions it kept: increasing, each naming the kept name, and
      holding every position below `n` whose name is a video name. */
  predicate IsSelection(names: seq<string>, n: nat, videos: seq<string>, positions: seq<int>)
    requires n <= |names|
  {
    && videos == FilterVideos(names[..n])
    && |positions| == |videos|
    && (forall k :: 0 <= k < |positions| ==> 0 <= positions[k] < n && videos[k] == names[positions[k]])
    && (forall k, l :: 0 <= k < l < |positions| ==> positions[k] < positions[l])
    && (forall j :: 0 <= j < n ==> (IsVideoName(names[j]) <==> j in positions))
  }

  /** Keeping a video name extends a selection by one name. */
  lemma SelectionKeep(names: seq<string>, n: nat, videos: seq<string>, positions: seq<int>)
    requires n < |names| && IsVideoName(names[n])
    requires IsSelection(names, n, videos, positions)
    ensures IsSelection(names, n + 1, videos + [names[n]], positions + [n])
  {
    FilterVideosStep(names, n);
    var positions' := positions + [n];
    forall j | 0 <= j < n + 1
      ensures IsVideoName(names[j]) <==> j in positions'
    {
      if j < n {
        assert j in positions ==> j in positions';
        assert j in positions' && j != n ==> j in positions;
      }
    }
  }

  /** Skipping a name that is not a video name extends a selection by one read. */
  lemma SelectionSkip(names: seq<string>, n: nat, videos: seq<string>, positions: seq<int>)
    requires n < |names| && !IsVideoName(names[n])
    requires IsSelection(names, n, videos, positions)
    ensures IsSelection(names, n + 1, videos, positions)
  {
    FilterVideosStep(names, n);
    forall k | 0 <= k < |positions|
      ensures positions[k] != n
    {
    }
  }

  /** The filter computed by one pass over the directory entries, together with
      the positions the kept names were read at: the positions increase, and a
      position is kept exactly when the name read there is a video. So the
      listing holds exactly the video entries, each once per occurrence, in
      the order of the read. */
  method SelectVideos(names: seq<string>) returns (videos: seq<string>, positions: seq<int>)
    ensures videos == FilterVideos(names)
    ensures |positions| == |videos|
    ensures forall k :: 0 <= k < |positions| ==> 0 <= positions[k] < |names| && videos[k] == names[positions[k]]
    ensures forall k, l :: 0 <= k < l < |positions| ==> positions[k] < positions[l]
    ensures forall j :: 0 <= j < |names| ==> (IsVideoName(names[j]) <==> j in positions)
  {
    videos, positions := [], [];
    var n := 0;
    while n < |names|
      invariant 0 <= n <= |names|
      invariant IsSelection(names, n, videos, positions)
    {
      if IsVideoName(names[n]) {
        SelectionKeep(names, n, videos, positions);
        videos := videos + [names[n]];
        positions := positions + [n];
      } else {
        SelectionSkip(names, n, videos, positions);
      }
      n := n + 1;
    }
    assert names[..n] == names;
  }
}
