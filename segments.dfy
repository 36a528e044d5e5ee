/** On-demand transcription of one region of a recording (enhanced backend):
    `extract_audio_segment`, which cuts the region into a fresh temporary
    file with ffmpeg, and the `/transcribe-segment` endpoint that downloads
    the recording, cuts the region, transcribes it and cleans up. */
module Segments {
  import opened PyJson
  import opened Text
  import opened Paths
  import opened Credentials
  import opened Resolver
  import opened ModelClient

  /** The ffmpeg invocation: input file, offset (`-ss`) and length (`-t`) in
      seconds, and output file. The fixed options (`-y`, `libmp3lame`, 16 kHz,
      mono) do not vary and are not represented. */
  datatype Cut = Cut(input: string, offset: real, length: real, output: string)

  /** What `subprocess.run(cmd, timeout=30)` does: the process finishes with a
      return code and its standard error, the 30-second timeout expires, or
      starting it raises some other exception. */
  datatype FfmpegRun =
    | Finished(returnCode: int, stderr: string)
    | TimedOut
    | Crashed(message: string)

  /** What `extract_audio_segment` returns or raises. */
  datatype Extraction = Extracted(path: string) | ExtractFailed(message: string)

  /** The command for the region `[start, end]`: it starts at `start` and
      lasts `end - start`, so it ends exactly at `end`. */
  function CutFor(audioPath: string, start: real, end: real, segmentPath: string): (c: Cut)
    ensures c.input == audioPath && c.output == segmentPath
    ensures c.offset == start && c.offset + c.length == end
  {
    Cut(audioPath, start, end - start, segmentPath)
  }

  /** `extract_audio_segment` as written: the segment file is created first;
      a non-zero return code raises inside the `try`, so the generic handler
      unlinks the file and re-raises; a timeout raises a new exception from
      its own handler, which the generic handler does not see, so the file
      stays. */
  function ExtractAsWritten(run: FfmpegRun, segmentPath: string, files: set<string>): (Extraction, set<string>) {
    var created := files + {segmentPath};
    match run
    case Finished(code, err) =>
      if code == 0 then (Extracted(segmentPath), created)
      else (ExtractFailed("FFmpeg failed: " + err), created - {segmentPath})
    case TimedOut => (ExtractFailed("FFmpeg timeout"), created)
    case Crashed(m) => (ExtractFailed(m), created - {segmentPath})
  }

  /** `extract_audio_segment`, step by step. `ffmpeg` stands for the
      subprocess: what running a given command does. */
  method ExtractAudioSegment(fs: FileSystem, ffmpeg: Cut -> FfmpegRun, audioPath: string,
                             start: real, end: real, segmentPath: string) returns (r: Extraction)
    modifies fs
    ensures (r, fs.files) == ExtractAsWritten(ffmpeg(CutFor(audioPath, start, end, segmentPath)), segmentPath, old(fs.files))
  {
    fs.CreateTemp(segmentPath);
    var duration := end - start;
    var cmd := Cut(audioPath, start, duration, segmentPath);
    var process := ffmpeg(cmd);
    match process
    case TimedOut =>
      return ExtractFailed("FFmpeg timeout");
    case Finished(code, err) =>
      if code == 0 {
        return Extracted(segmentPath);
      }
      if segmentPath in fs.files {
        fs.Unlink(segmentPath);
      }
      return ExtractFailed("FFmpeg failed: " + err);
    case Crashed(m) =>
      if segmentPath in fs.files {
        fs.Unlink(segmentPath);
      }
      return ExtractFailed(m);
  }

  /** Success hands the new file to the caller; a failed run or a crash
      leaves the files as they were. */
  lemma ExtractCleansOnError(run: FfmpegRun, segmentPath: string, files: set<string>)
    requires segmentPath !in files
    ensures var (x, after) := ExtractAsWritten(run, segmentPath, files);
            (x.Extracted? <==> run.Finished? && run.returnCode == 0)
            && (x.Extracted? ==> x.path == segmentPath && after == files + {segmentPath})
            && (!run.TimedOut? && x.ExtractFailed? ==> after == files)
  {
  }

  /** The timeout path leaves the fresh segment file behind. */
  lemma TimeoutLeaksSegment(segmentPath: string, files: set<string>)
    requires segmentPath !in files
    ensures ExtractAsWritten(TimedOut, segmentPath, files) == (ExtractFailed("FFmpeg timeout"), files + {segmentPath})
    ensures ExtractAsWritten(TimedOut, segmentPath, files).1 != files
  {
    assert segmentPath in ExtractAsWritten(TimedOut, segmentPath, files).1;
  }

  /** The evidently intended `extract_audio_segment`: the timeout is
      cleaned up like every other failure. */
  function ExtractIntended(run: FfmpegRun, segmentPath: string, files: set<string>): (Extraction, set<string>) {
    var created := files + {segmentPath};
    match run
    case Finished(code, err) =>
      if code == 0 then (Extracted(segmentPath), created)
      else (ExtractFailed("FFmpeg failed: " + err), created - {segmentPath})
    case TimedOut => (ExtractFailed("FFmpeg timeout"), created - {segmentPath})
    case Crashed(m) => (ExtractFailed(m), created - {segmentPath})
  }

  /** With the intended clean-up, a failure of any kind leaves no file, and
      the two versions differ only on the timeout path. */
  lemma ExtractIntendedNoLeak(run: FfmpegRun, segmentPath: string, files: set<string>)
    requires segmentPath !in files
    ensures var (x, after) := ExtractIntended(run, segmentPath, files);
            (x.Extracted? ==> after == files + {segmentPath})
            && (x.ExtractFailed? ==> after == files)
    ensures !run.TimedOut? ==> ExtractIntended(run, segmentPath, files) == ExtractAsWritten(run, segmentPath, files)
  {
  }

  // -----------------------------------------------------------------------
  // The /transcribe-segment endpoint
  // -----------------------------------------------------------------------

  /** The response model: transcription, language, gender, emotion and
      confidence. */
  datatype SegmentReply = SegmentReply(transcription: string, language: string, gender: string,
                                       emotion: string, confidence: real)

  /** The endpoint's answer: the response model, or the HTTP status raised. */
  datatype EndpointResult = Transcribed(reply: SegmentReply) | EndpointFailed(status: int)

  /** The parts of one request the outside world decides: the download (see
      `Resolver.Network`), the ffmpeg run, the name of the segment file, the
      model's reply for the segment, and building the response model from
      the transcription record (`None` when a field has the wrong type and
      validation, or the log line that slices the transcription, raises). */
  datatype SegmentWorld = SegmentWorld(net: Network, ffmpeg: Cut -> FfmpegRun, segmentPath: string,
                                       reply: Reply, respond: Json -> Option<SegmentReply>)

  /** The part of `transcribe_segment(request)` after the download: cut the
      region, transcribe it, build the response model, then the `finally`
      block, which unlinks the recording when it is under "/tmp" and the
      segment file when one was returned. */
  function TranscribeResolved(w: SegmentWorld, parse: string -> Option<Json>, files: set<string>,
                              audioPath: string, start: real, end: real): (EndpointResult, set<string>)
  {
    var (x, extracted) := ExtractAsWritten(w.ffmpeg(CutFor(audioPath, start, end, w.segmentPath)), w.segmentPath, files);
    var status :=
      if x.ExtractFailed? then EndpointFailed(500)
      else match w.respond(TranscribeSegment(w.reply, parse))
        case None => EndpointFailed(500)
        case Some(reply) => Transcribed(reply);
    var cleaned := DropTmp(audioPath, extracted);
    (status, if x.Extracted? && x.path != "" && x.path in cleaned then cleaned - {x.path} else cleaned)
  }

  /** `transcribe_segment(request)`: every exception, including the 400 for
      a `blob:` reference, becomes 500. A failed download leaves nothing to
      clean up. */
  function TranscribeEndpoint(cfg: Config, w: SegmentWorld, parse: string -> Option<Json>, files: set<string>,
                              audioUrl: string, start: real, end: real): (EndpointResult, set<string>)
  {
    var (res, downloaded) := ResolveEnhanced(cfg, w.net, files, audioUrl);
    if res.Failed? then (EndpointFailed(500), downloaded)
    else TranscribeResolved(w, parse, downloaded, res.path, start, end)
  }

  /** The `try` body after the download and the `finally` block. */
  method TranscribeDownloaded(fs: FileSystem, w: SegmentWorld, parse: string -> Option<Json>,
                              audioPath: string, start: real, end: real) returns (r: EndpointResult)
    modifies fs
    ensures (r, fs.files) == TranscribeResolved(w, parse, old(fs.files), audioPath, start, end)
  {
    var segmentPath: Option<string> := None;
    var x := ExtractAudioSegment(fs, w.ffmpeg, audioPath, start, end, w.segmentPath);
    if x.ExtractFailed? {
      r := EndpointFailed(500);
    } else {
      segmentPath := Some(x.path);
      var result := TranscribeSegment(w.reply, parse);
      var reply := w.respond(result);
      r := if reply.Some? then Transcribed(reply.value) else EndpointFailed(500);
    }
    // finally
    if audioPath != "" && audioPath in fs.files && StartsWith(audioPath, "/tmp") {
      fs.Unlink(audioPath);
    }
    if segmentPath.Some? && segmentPath.value != "" && segmentPath.value in fs.files {
      fs.Unlink(segmentPath.value);
    }
  }

  /** `transcribe_segment`, step by step. */
  method TranscribeSegmentRequest(fs: FileSystem, cfg: Config, w: SegmentWorld, parse: string -> Option<Json>,
                                  audioUrl: string, start: real, end: real) returns (r: EndpointResult)
    modifies fs
    ensures (r, fs.files) == TranscribeEndpoint(cfg, w, parse, old(fs.files), audioUrl, start, end)
  {
    var res := DownloadAudioEnhanced(fs, cfg, w.net, audioUrl);
    if res.Failed? {
      return EndpointFailed(500);
    }
    r := TranscribeDownloaded(fs, w, parse, res.path, start, end);
  }

  /** A `blob:` reference is answered with 500, not the 400 the resolver
      raises, and touches no file. */
  lemma EndpointBlobIs500(cfg: Config, w: SegmentWorld, parse: string -> Option<Json>, files: set<string>,
                          audioUrl: string, start: real, end: real)
    requires StartsWith(audioUrl, "blob:")
    ensures TranscribeEndpoint(cfg, w, parse, files, audioUrl, start, end) == (EndpointFailed(500), files)
  {
  }

  /** After the download, an ffmpeg run that does not time out leaves
      exactly what the `/tmp` rule leaves of the recording, and nothing
      else; a timeout leaves the segment file besides. */
  lemma ResolvedFiles(w: SegmentWorld, parse: string -> Option<Json>, files: set<string>,
                      audioPath: string, start: real, end: real)
    requires audioPath in files && w.segmentPath !in files && w.segmentPath != ""
    ensures var (r, after) := TranscribeResolved(w, parse, files, audioPath, start, end);
            var run := w.ffmpeg(CutFor(audioPath, start, end, w.segmentPath));
            && (run.TimedOut? ==> r == EndpointFailed(500) && after == DropTmp(audioPath, files) + {w.segmentPath})
            && (!run.TimedOut? ==> after == DropTmp(audioPath, files))
  {
    var run := w.ffmpeg(CutFor(audioPath, start, end, w.segmentPath));
    var (x, extracted) := ExtractAsWritten(run, w.segmentPath, files);
    assert audioPath != w.segmentPath;
    if x.Extracted? {
      assert extracted == files + {w.segmentPath};
      assert DropTmp(audioPath, extracted) == DropTmp(audioPath, files) + {w.segmentPath};
    } else if run.TimedOut? {
      assert extracted == files + {w.segmentPath};
      assert DropTmp(audioPath, extracted) == DropTmp(audioPath, files) + {w.segmentPath};
    } else {
      assert extracted == files;
    }
  }

  /** After a timeout the segment file is still there when the endpoint
      has answered 500. */
  lemma EndpointTimeoutLeaks(cfg: Config, w: SegmentWorld, parse: string -> Option<Json>, files: set<string>,
                             audioUrl: string, start: real, end: real)
    requires GlobSound(cfg) && w.net.tempPath !in files
    requires w.segmentPath !in files && w.segmentPath != w.net.tempPath && w.segmentPath != ""
    requires forall c: Cut :: w.ffmpeg(c) == TimedOut
    requires !ResolveEnhanced(cfg, w.net, files, audioUrl).0.Failed?
    ensures var (r, after) := TranscribeEndpoint(cfg, w, parse, files, audioUrl, start, end);
            r == EndpointFailed(500) && w.segmentPath in after
  {
    EnhancedOwnership(cfg, w.net, files, audioUrl);
    var (res, downloaded) := ResolveEnhanced(cfg, w.net, files, audioUrl);
    assert w.ffmpeg(CutFor(res.path, start, end, w.segmentPath)) == TimedOut;
    ResolvedFiles(w, parse, downloaded, res.path, start, end);
  }

  /** Otherwise the endpoint leaves no file behind: afterwards there are at
      most the files there were before (a local recording under "/tmp" is
      removed too), except the temporary download when the refreshed token
      is not a string. */
  lemma EndpointCleansUp(cfg: Config, w: SegmentWorld, parse: string -> Option<Json>, files: set<string>,
                         audioUrl: string, start: real, end: real)
    requires GlobSound(cfg) && w.net.tempPath !in files && StartsWith(w.net.tempPath, "/tmp")
    requires w.segmentPath !in files && w.segmentPath != w.net.tempPath && w.segmentPath != ""
    requires forall c: Cut :: w.ffmpeg(c) != TimedOut
    ensures !TokenNotString(cfg.apiKey, w.net.refreshed) ==> TranscribeEndpoint(cfg, w, parse, files, audioUrl, start, end).1 <= files
    ensures TranscribeEndpoint(cfg, w, parse, files, audioUrl, start, end).1 <= files + {w.net.tempPath}
  {
    EnhancedOwnership(cfg, w.net, files, audioUrl);
    var (res, downloaded) := ResolveEnhanced(cfg, w.net, files, audioUrl);
    if !res.Failed? {
      assert w.ffmpeg(CutFor(res.path, start, end, w.segmentPath)) != TimedOut;
      ResolvedFiles(w, parse, downloaded, res.path, start, end);
    }
  }
}
