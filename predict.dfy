/** The `/predict` endpoint of both backends: validate the request, then run
    every task through download, analysis and formatting, isolating failures
    and cleaning up the resolved audio file. A task's processing is a step
    from the files before it to the entries it appends and the files after
    it; the batch is the left fold of those steps over the list of tasks. */
module Predict {
  import opened PyJson
  import opened Text
  import opened Paths
  import opened Credentials
  import opened Resolver
  import opened ModelClient
  import opened Formatter

  /** The endpoint's answer: `{"results": [...]}` or the HTTP status raised. */
  datatype Response = Rejected(status: int) | Results(results: seq<Prediction>)

  /** What processing one task does to the batch: append some predictions,
      or abort the whole request (the error handler itself raises). */
  datatype TaskResult = Abort | Emit(entries: seq<Prediction>)

  /** The prediction appended for a task that failed. */
  function FailureEntry(version: string): (p: Prediction)
    ensures p.result == [] && p.score == 0.0 && p.modelVersion == version
  {
    Prediction([], 0.0, version)
  }

  /** How far `task.get("data", {}).get("audio")` gets: a task that is not a
      dict makes the `except` handler's own `task.get` raise; a `data` that
      is not a dict raises inside the `try`; a falsy reference is skipped. */
  datatype Reference = BadTask | BadData | NoAudio | Audio(url: Json)

  function TaskReference(task: Json): (r: Reference)
    ensures r.BadTask? <==> !task.JObj?
    ensures r.Audio? ==> Truthy(r.url)
  {
    if !task.JObj? then BadTask
    else
      var data := GetOr(task.fields, "data", JObj(map[]));
      if !data.JObj? then BadData
      else
        var audio := Get(data.fields, "audio");
        if !Truthy(audio) then NoAudio else Audio(audio)
  }

  /** A task that contributes no result. */
  predicate Skips(task: Json) {
    TaskReference(task).NoAudio?
  }

  /** Number of tasks that are not skipped. */
  function Answered(tasks: seq<Json>): (n: nat)
    ensures n <= |tasks|
  {
    if tasks == [] then 0
    else Answered(tasks[..|tasks| - 1]) + (if Skips(tasks[|tasks| - 1]) then 0 else 1)
  }

  // -----------------------------------------------------------------------
  // The batch, shared by both backends
  // -----------------------------------------------------------------------

  /** Processing one task at a position, given the files before it. */
  type TaskStep = (nat, set<string>, Json) -> (TaskResult, set<string>)

  /** The `for task in tasks` loop: each task runs on the files that earlier tasks
      left; an abort ends the request with 500. */
  function Batch(step: TaskStep, tasks: seq<Json>, files: set<string>): (Response, set<string>)
    decreases |tasks|
  {
    if tasks == [] then (Results([]), files)
    else
      var (before, f) := Batch(step, tasks[..|tasks| - 1], files);
      if before.Rejected? then (before, f)
      else
        var (t, after) := step(|tasks| - 1, f, tasks[|tasks| - 1]);
        if t.Abort? then (Rejected(500), after) else (Results(before.results + t.entries), after)
  }

  /** `predict(request)`: a request without a truthy `tasks` is refused with
      422; a truthy `tasks` that is not a list iterates keys, characters or
      nothing at all, and fails with 500. */
  function PredictWith(step: TaskStep, request: map<string, Json>, files: set<string>): (Response, set<string>) {
    if "tasks" !in request || !Truthy(request["tasks"]) then (Rejected(422), files)
    else if !request["tasks"].JArr? then (Rejected(500), files)
    else Batch(step, request["tasks"].items, files)
  }

  /** Once the request has failed, later tasks change nothing. */
  lemma {:induction false} RejectedSticks(step: TaskStep, tasks: seq<Json>, j: nat, files: set<string>)
    requires j <= |tasks| && Batch(step, tasks[..j], files).0.Rejected?
    ensures Batch(step, tasks, files) == Batch(step, tasks[..j], files)
    decreases |tasks|
  {
    if j < |tasks| {
      assert tasks[..|tasks| - 1][..j] == tasks[..j];
      RejectedSticks(step, tasks[..|tasks| - 1], j, files);
    } else {
      assert tasks[..j] == tasks;
    }
  }

  /** The batch only ever fails with 500. */
  lemma {:induction false} BatchStatus(step: TaskStep, tasks: seq<Json>, files: set<string>)
    ensures Batch(step, tasks, files).0.Rejected? ==> Batch(step, tasks, files).0.status == 500
    decreases |tasks|
  {
    if tasks != [] {
      BatchStatus(step, tasks[..|tasks| - 1], files);
    }
  }

  /** With a step that aborts exactly on a task that is not a dict, the
      batch fails iff some task is not a dict. */
  lemma {:induction false} BatchRejectsIff(step: TaskStep, tasks: seq<Json>, files: set<string>)
    requires forall i: nat, f: set<string>, t: Json :: step(i, f, t).0.Abort? <==> !t.JObj?
    ensures Batch(step, tasks, files).0.Rejected? <==> exists k :: 0 <= k < |tasks| && !tasks[k].JObj?
    decreases |tasks|
  {
    if tasks != [] {
      var init := tasks[..|tasks| - 1];
      BatchRejectsIff(step, init, files);
      if exists k :: 0 <= k < |init| && !init[k].JObj? {
        var k :| 0 <= k < |init| && !init[k].JObj?;
        assert tasks[k] == init[k];
      }
      if exists k :: 0 <= k < |tasks| && !tasks[k].JObj? {
        var k :| 0 <= k < |tasks| && !tasks[k].JObj?;
        if k < |init| {
          assert init[k] == tasks[k];
        }
      }
    }
  }

  /** Later tasks only append: the results of every prefix of a successful
      batch are a prefix of its results, so a failing task neither stops
      nor undoes the others. */
  lemma {:induction false} BatchPrefix(step: TaskStep, tasks: seq<Json>, j: nat, files: set<string>)
    requires j <= |tasks| && Batch(step, tasks, files).0.Results?
    ensures Batch(step, tasks[..j], files).0.Results?
    ensures Batch(step, tasks[..j], files).0.results <= Batch(step, tasks, files).0.results
    decreases |tasks|
  {
    if j == |tasks| {
      assert tasks[..j] == tasks;
    } else {
      var init := tasks[..|tasks| - 1];
      assert init[..j] == tasks[..j];
      BatchPrefix(step, init, j, files);
    }
  }

  /** If every task that is not skipped appends between one and `most`
      predictions, and a skipped task none, the batch has between one and
      `most` results per answered task. */
  lemma {:induction false} BatchLength(step: TaskStep, tasks: seq<Json>, files: set<string>, most: nat)
    requires forall i: nat, f: set<string>, t: Json :: step(i, f, t).0.Emit? ==>
               if Skips(t) then step(i, f, t).0.entries == []
               else 1 <= |step(i, f, t).0.entries| <= most
    ensures Batch(step, tasks, files).0.Results? ==>
              Answered(tasks) <= |Batch(step, tasks, files).0.results| <= most * Answered(tasks)
    decreases |tasks|
  {
    if tasks != [] {
      var init := tasks[..|tasks| - 1];
      BatchLength(step, init, files, most);
      var (before, f) := Batch(step, init, files);
      var last := tasks[|tasks| - 1];
      var (t, after) := step(|tasks| - 1, f, last);
      if before.Results? && t.Emit? {
        assert Batch(step, tasks, files).0.results == before.results + t.entries;
        var extra := if Skips(last) then 0 else 1;
        assert Answered(tasks) == Answered(init) + extra;
        BoundStep(most, Answered(init), |before.results|, extra, |t.entries|);
      }
    }
  }

  /** Adding one task's entries to the results keeps them within the
      per-task bounds. */
  lemma BoundStep(most: nat, n: nat, len: nat, extra: nat, added: nat)
    requires n <= len <= most * n && extra <= 1
    requires extra == 0 ==> added == 0
    requires extra == 1 ==> 1 <= added <= most
    ensures n + extra <= len + added <= most * (n + extra)
  {
    assert most * (n + extra) == most * n + most * extra;
  }

  /** One pass of the loop body: `Batch` on one more task. */
  lemma BatchSnoc(step: TaskStep, tasks: seq<Json>, i: nat, files: set<string>)
    requires i < |tasks| && Batch(step, tasks[..i], files).0.Results?
    ensures var (before, f) := Batch(step, tasks[..i], files);
            var (t, after) := step(i, f, tasks[i]);
            Batch(step, tasks[..i + 1], files) ==
              if t.Abort? then (Rejected(500), after) else (Results(before.results + t.entries), after)
  {
    assert tasks[..i + 1][..i] == tasks[..i];
  }

  // -----------------------------------------------------------------------
  // The enhanced backend
  // -----------------------------------------------------------------------

  /** What the outside world decides for one task: the download, the model's
      replies (see `ModelClient.AnalyzeFrom`) and the region ids. */
  datatype EnhancedWorld = EnhancedWorld(net: Network, gen: (nat, Prompt) -> Reply, ids: nat -> string)

  /** `len(v)` is defined (strings, lists and dicts). */
  predicate Sized(v: Json) {
    v.JStr? || v.JArr? || v.JObj?
  }

  /** What the enhanced loop appends for an analysis, as written: a failure
      entry when formatting raises; otherwise the prediction, and then, since
      the log line after `results.append` takes `len` of `segments`, a second
      failure entry when `segments` is `null`, `false` or zero. */
  function EnhancedEmit(analysis: Json, ids: nat -> string): (es: seq<Prediction>)
    ensures 1 <= |es| <= 2
    ensures es[0] == FormatEnhanced(analysis, ids).GetOr(FailureEntry(EnhancedVersion))
  {
    match FormatEnhanced(analysis, ids)
    case None => [FailureEntry(EnhancedVersion)]
    case Some(p) =>
      if Sized(GetOr(analysis.fields, "segments", JArr([]))) then [p]
      else [p, FailureEntry(EnhancedVersion)]
  }

  /** The evidently intended appends: exactly one prediction per analysis. */
  function EnhancedEmitIntended(analysis: Json, ids: nat -> string): seq<Prediction> {
    match FormatEnhanced(analysis, ids)
    case None => [FailureEntry(EnhancedVersion)]
    case Some(p) => [p]
  }

  /** The extra entry appears exactly for an object whose `segments` is a
      falsy value without a length. */
  lemma EnhancedEmitTwiceIff(analysis: Json, ids: nat -> string)
    ensures |EnhancedEmit(analysis, ids)| == 2 <==>
              analysis.JObj? && "segments" in analysis.fields &&
              analysis.fields["segments"] in [JNull, JBool(false), JInt(0), JFloat(0.0)]
    ensures |EnhancedEmit(analysis, ids)| == 2 ==> EnhancedEmit(analysis, ids)[1] == FailureEntry(EnhancedVersion)
  {
    if analysis.JObj? && "segments" in analysis.fields {
      var s := analysis.fields["segments"];
      if !Sized(s) && FormatEnhanced(analysis, ids).Some? {
        assert !Truthy(s);
        assert s in [JNull, JBool(false), JInt(0), JFloat(0.0)];
      }
    }
  }

  /** A concrete instance: `{"segments": null}` yields the empty prediction
      and a failure entry for the same task. */
  lemma NullSegmentsEmitTwice(ids: nat -> string)
    ensures EnhancedEmit(JObj(map["segments" := JNull]), ids) ==
              [Prediction([], 0.95, EnhancedVersion), FailureEntry(EnhancedVersion)]
  {
    var analysis := JObj(map["segments" := JNull]);
    assert Get(analysis.fields, "segments") == JNull;
    assert !Has(analysis.fields, "summary_uzbek");
    var none: seq<Entry> := [];
    assert none + none == [];
    assert FormatEnhanced(analysis, ids) == Some(Prediction([], 0.95, EnhancedVersion));
  }

  /** The intended appends are one entry per analysis, and agree with the
      code wherever `segments` has a length or formatting raises. */
  lemma EnhancedEmitIntendedOne(analysis: Json, ids: nat -> string)
    ensures |EnhancedEmitIntended(analysis, ids)| == 1
    ensures EnhancedEmitIntended(analysis, ids)[0] ==
              if FormatEnhanced(analysis, ids).Some? then FormatEnhanced(analysis, ids).value
              else FailureEntry(EnhancedVersion)
    ensures FormatEnhanced(analysis, ids).None? || Sized(GetOr(analysis.fields, "segments", JArr([]))) ==>
              EnhancedEmit(analysis, ids) == EnhancedEmitIntended(analysis, ids)
  {
  }

  /** One iteration of the enhanced loop: the entries appended and the files
      afterwards. A resolved file is unlinked (in `finally`) only when it
      exists and starts with "/tmp". */
  function EnhancedTask(cfg: Config, parse: string -> Option<Json>, w: EnhancedWorld,
                        files: set<string>, task: Json): (r: (TaskResult, set<string>))
    ensures r.0.Abort? <==> !task.JObj?
    ensures r.0.Emit? && Skips(task) ==> r.0.entries == []
    ensures r.0.Emit? && !Skips(task) ==> 1 <= |r.0.entries| <= 2
  {
    match TaskReference(task)
    case BadTask => (Abort, files)
    case BadData => (Emit([FailureEntry(EnhancedVersion)]), files)
    case NoAudio => (Emit([]), files)
    case Audio(url) =>
      if !url.JStr? then (Emit([FailureEntry(EnhancedVersion)]), files)
      else
        var (res, downloaded) := ResolveEnhanced(cfg, w.net, files, url.s);
        if res.Failed? then (Emit([FailureEntry(EnhancedVersion)]), downloaded)
        else (Emit(EnhancedOutcome(w.gen, parse, w.ids)), DropTmp(res.path, downloaded))
  }

  /** What the enhanced loop appends once the audio is available: the
      analysis, formatted, or a failure entry when the analysis raises. */
  function EnhancedOutcome(gen: (nat, Prompt) -> Reply, parse: string -> Option<Json>, ids: nat -> string): (es: seq<Prediction>)
    ensures 1 <= |es| <= 2
  {
    match AnalyzeFrom(gen, parse, 0)
    case Unhandled(_) => [FailureEntry(EnhancedVersion)]
    case Returned(analysis) => EnhancedEmit(analysis, ids)
  }

  /** The `try` block of the enhanced loop: analyse, format, append. */
  method AnalyzeAndFormatEnhanced(gen: (nat, Prompt) -> Reply, parse: string -> Option<Json>, ids: nat -> string)
    returns (emitted: seq<Prediction>)
    ensures emitted == EnhancedOutcome(gen, parse, ids)
  {
    var analysis := AnalyzeAudio(gen, parse);
    if analysis.Unhandled? {
      return [FailureEntry(EnhancedVersion)];
    }
    var prediction := FormatEnhancedPredictions(analysis.value, ids);
    if prediction.None? {
      return [FailureEntry(EnhancedVersion)];
    }
    emitted := [prediction.value];
    if !Sized(GetOr(analysis.value.fields, "segments", JArr([]))) {
      emitted := emitted + [FailureEntry(EnhancedVersion)];
    }
  }

  /** The enhanced loop body for each position's task. */
  function EnhancedStep(cfg: Config, parse: string -> Option<Json>, world: nat -> EnhancedWorld): TaskStep {
    (i: nat, f: set<string>, t: Json) => EnhancedTask(cfg, parse, world(i), f, t)
  }

  /** The enhanced `predict`. */
  function PredictEnhancedSpec(cfg: Config, parse: string -> Option<Json>, world: nat -> EnhancedWorld,
                               request: map<string, Json>, files: set<string>): (Response, set<string>) {
    PredictWith(EnhancedStep(cfg, parse, world), request, files)
  }

  /** The body of the enhanced loop for one task, step by step. */
  method ProcessEnhancedTask(fs: FileSystem, cfg: Config, parse: string -> Option<Json>, w: EnhancedWorld, task: Json)
    returns (t: TaskResult)
    modifies fs
    ensures (t, fs.files) == EnhancedTask(cfg, parse, w, old(fs.files), task)
  {
    if !task.JObj? {
      return Abort;
    }
    var data := GetOr(task.fields, "data", JObj(map[]));
    if !data.JObj? {
      return Emit([FailureEntry(EnhancedVersion)]);
    }
    var audioUrl := Get(data.fields, "audio");
    if !Truthy(audioUrl) {
      return Emit([]);
    }
    if !audioUrl.JStr? {
      return Emit([FailureEntry(EnhancedVersion)]);
    }
    var resolved := DownloadAudioEnhanced(fs, cfg, w.net, audioUrl.s);
    if resolved.Failed? {
      return Emit([FailureEntry(EnhancedVersion)]);
    }
    var audioPath := resolved.path;
    var emitted := AnalyzeAndFormatEnhanced(w.gen, parse, w.ids);
    if audioPath in fs.files && StartsWith(audioPath, "/tmp") {
      fs.Unlink(audioPath);
    }
    return Emit(emitted);
  }

  /** The enhanced `predict`, step by step. */
  method PredictEnhanced(fs: FileSystem, cfg: Config, parse: string -> Option<Json>, world: nat -> EnhancedWorld,
                         request: map<string, Json>) returns (r: Response)
    modifies fs
    ensures (r, fs.files) == PredictEnhancedSpec(cfg, parse, world, request, old(fs.files))
  {
    if "tasks" !in request {
      return Rejected(422);
    }
    var tasks := request["tasks"];
    if !Truthy(tasks) {
      return Rejected(422);
    }
    if !tasks.JArr? {
      return Rejected(500);
    }
    ghost var step := EnhancedStep(cfg, parse, world);
    var results: seq<Prediction> := [];
    for i := 0 to |tasks.items|
      invariant (Results(results), fs.files) == Batch(step, tasks.items[..i], old(fs.files))
    {
      BatchSnoc(step, tasks.items, i, old(fs.files));
      var t := ProcessEnhancedTask(fs, cfg, parse, world(i), tasks.items[i]);
      if t.Abort? {
        RejectedSticks(step, tasks.items, i + 1, old(fs.files));
        return Rejected(500);
      }
      results := results + t.entries;
    }
    assert tasks.items[..|tasks.items|] == tasks.items;
    return Results(results);
  }

  // -----------------------------------------------------------------------
  // The simple backend
  // -----------------------------------------------------------------------

  /** What the outside world decides for one task: the download and the
      model's single reply. */
  datatype SimpleWorld = SimpleWorld(net: Network, reply: Reply)

  /** One iteration of the simple loop. The resolved file is unlinked
      whenever it exists, whether it was downloaded or found locally. */
  function SimpleTask(cfg: Config, parse: string -> Option<Json>, w: SimpleWorld,
                      files: set<string>, task: Json): (r: (TaskResult, set<string>))
    ensures r.0.Abort? <==> !task.JObj?
    ensures r.0.Emit? && Skips(task) ==> r.0.entries == []
    ensures r.0.Emit? && !Skips(task) ==> |r.0.entries| == 1
  {
    match TaskReference(task)
    case BadTask => (Abort, files)
    case BadData => (Emit([FailureEntry(SimpleVersion)]), files)
    case NoAudio => (Emit([]), files)
    case Audio(url) =>
      if !url.JStr? then (Emit([FailureEntry(SimpleVersion)]), files)
      else
        var (res, downloaded) := ResolveSimple(cfg, w.net, files, url.s);
        if res.Failed? then (Emit([FailureEntry(SimpleVersion)]), downloaded)
        else (Emit([SimpleOutcome(w.reply, parse)]), downloaded - {res.path})
  }

  /** What the simple loop appends once the audio is available: the
      formatted analysis, or a failure entry when analysis or formatting
      raises. */
  function SimpleOutcome(reply: Reply, parse: string -> Option<Json>): Prediction {
    match SimpleAnalyze(reply, parse)
    case Unhandled(_) => FailureEntry(SimpleVersion)
    case Returned(analysis) => FormatSimple(analysis).GetOr(FailureEntry(SimpleVersion))
  }

  /** The `try` block of the simple loop: analyse, format, append. */
  method AnalyzeAndFormatSimple(reply: Reply, parse: string -> Option<Json>) returns (p: Prediction)
    ensures p == SimpleOutcome(reply, parse)
  {
    var analysis := SimpleAnalyze(reply, parse);
    if analysis.Unhandled? {
      return FailureEntry(SimpleVersion);
    }
    var prediction := FormatLabelStudioPredictions(analysis.value);
    p := if prediction.Some? then prediction.value else FailureEntry(SimpleVersion);
  }

  /** The simple loop body for each position's task. */
  function SimpleStep(cfg: Config, parse: string -> Option<Json>, world: nat -> SimpleWorld): TaskStep {
    (i: nat, f: set<string>, t: Json) => SimpleTask(cfg, parse, world(i), f, t)
  }

  /** The simple `predict`. */
  function PredictSimpleSpec(cfg: Config, parse: string -> Option<Json>, world: nat -> SimpleWorld,
                             request: map<string, Json>, files: set<string>): (Response, set<string>) {
    PredictWith(SimpleStep(cfg, parse, world), request, files)
  }

  /** The body of the simple loop for one task, step by step. */
  method ProcessSimpleTask(fs: FileSystem, cfg: Config, parse: string -> Option<Json>, w: SimpleWorld, task: Json)
    returns (t: TaskResult)
    modifies fs
    ensures (t, fs.files) == SimpleTask(cfg, parse, w, old(fs.files), task)
  {
    if !task.JObj? {
      return Abort;
    }
    var data := GetOr(task.fields, "data", JObj(map[]));
    if !data.JObj? {
      return Emit([FailureEntry(SimpleVersion)]);
    }
    var audioUrl := Get(data.fields, "audio");
    if !Truthy(audioUrl) {
      return Emit([]);
    }
    if !audioUrl.JStr? {
      return Emit([FailureEntry(SimpleVersion)]);
    }
    var resolved := DownloadAudioSimple(fs, cfg, w.net, audioUrl.s);
    if resolved.Failed? {
      return Emit([FailureEntry(SimpleVersion)]);
    }
    var audioPath := resolved.path;
    var prediction := AnalyzeAndFormatSimple(w.reply, parse);
    if audioPath in fs.files {
      fs.Unlink(audioPath);
    }
    return Emit([prediction]);
  }

  /** The simple `predict`, step by step. */
  method PredictSimple(fs: FileSystem, cfg: Config, parse: string -> Option<Json>, world: nat -> SimpleWorld,
                       request: map<string, Json>) returns (r: Response)
    modifies fs
    ensures (r, fs.files) == PredictSimpleSpec(cfg, parse, world, request, old(fs.files))
  {
    if "tasks" !in request {
      return Rejected(422);
    }
    var tasks := request["tasks"];
    if !Truthy(tasks) {
      return Rejected(422);
    }
    if !tasks.JArr? {
      return Rejected(500);
    }
    ghost var step := SimpleStep(cfg, parse, world);
    var results: seq<Prediction> := [];
    for i := 0 to |tasks.items|
      invariant (Results(results), fs.files) == Batch(step, tasks.items[..i], old(fs.files))
    {
      BatchSnoc(step, tasks.items, i, old(fs.files));
      var t := ProcessSimpleTask(fs, cfg, parse, world(i), tasks.items[i]);
      if t.Abort? {
        RejectedSticks(step, tasks.items, i + 1, old(fs.files));
        return Rejected(500);
      }
      results := results + t.entries;
    }
    assert tasks.items[..|tasks.items|] == tasks.items;
    return Results(results);
  }

  // -----------------------------------------------------------------------
  // Properties of the two loops
  // -----------------------------------------------------------------------

  /** Request validation: 422 exactly when `tasks` is missing or falsy; every
      other failure of the request is 500. */
  lemma PredictStatus(step: TaskStep, request: map<string, Json>, files: set<string>)
    ensures PredictWith(step, request, files).0 == Rejected(422) <==>
              "tasks" !in request || !Truthy(request["tasks"])
    ensures PredictWith(step, request, files).0.Rejected? ==>
              PredictWith(step, request, files).0.status in {422, 500}
    ensures PredictWith(step, request, files).0 == Rejected(422) ==> PredictWith(step, request, files).1 == files
  {
    if "tasks" in request && Truthy(request["tasks"]) && request["tasks"].JArr? {
      BatchStatus(step, request["tasks"].items, files);
    }
  }

  /** Only a task that is not a dict aborts, in either loop. */
  lemma StepsAbortOnNonDict(cfg: Config, parse: string -> Option<Json>,
                            eworld: nat -> EnhancedWorld, sworld: nat -> SimpleWorld)
    ensures forall i: nat, f: set<string>, t: Json ::
              EnhancedStep(cfg, parse, eworld)(i, f, t).0.Abort? <==> !t.JObj?
    ensures forall i: nat, f: set<string>, t: Json ::
              SimpleStep(cfg, parse, sworld)(i, f, t).0.Abort? <==> !t.JObj?
  {
    forall i: nat, f: set<string>, t: Json
      ensures EnhancedStep(cfg, parse, eworld)(i, f, t).0.Abort? <==> !t.JObj?
    {
      assert EnhancedStep(cfg, parse, eworld)(i, f, t) == EnhancedTask(cfg, parse, eworld(i), f, t);
    }
    forall i: nat, f: set<string>, t: Json
      ensures SimpleStep(cfg, parse, sworld)(i, f, t).0.Abort? <==> !t.JObj?
    {
      assert SimpleStep(cfg, parse, sworld)(i, f, t) == SimpleTask(cfg, parse, sworld(i), f, t);
    }
  }

  /** The enhanced request fails with 500 exactly when `tasks` is truthy and
      is not a list, or holds an element that is not a dict. */
  lemma EnhancedRejects500(cfg: Config, parse: string -> Option<Json>, world: nat -> EnhancedWorld,
                           request: map<string, Json>, files: set<string>)
    requires "tasks" in request && Truthy(request["tasks"])
    ensures PredictEnhancedSpec(cfg, parse, world, request, files).0.Rejected? <==>
              !request["tasks"].JArr? || exists k :: 0 <= k < |request["tasks"].items| && !request["tasks"].items[k].JObj?
  {
    if request["tasks"].JArr? {
      StepsAbortOnNonDict(cfg, parse, world, _ => SimpleWorld(Network(None, "", false), Raised("")));
      BatchRejectsIff(EnhancedStep(cfg, parse, world), request["tasks"].items, files);
    }
  }

  /** The same for the simple request. */
  lemma SimpleRejects500(cfg: Config, parse: string -> Option<Json>, world: nat -> SimpleWorld,
                         request: map<string, Json>, files: set<string>)
    requires "tasks" in request && Truthy(request["tasks"])
    ensures PredictSimpleSpec(cfg, parse, world, request, files).0.Rejected? <==>
              !request["tasks"].JArr? || exists k :: 0 <= k < |request["tasks"].items| && !request["tasks"].items[k].JObj?
  {
    if request["tasks"].JArr? {
      StepsAbortOnNonDict(cfg, parse, _ => EnhancedWorld(Network(None, "", false), (n, p) => Raised(""), n => ""), world);
      BatchRejectsIff(SimpleStep(cfg, parse, world), request["tasks"].items, files);
    }
  }

  /** The simple loop appends exactly one prediction per task that has an
      audio reference; a task without one contributes nothing. */
  lemma SimpleOnePerTask(cfg: Config, parse: string -> Option<Json>, world: nat -> SimpleWorld,
                         tasks: seq<Json>, files: set<string>)
    ensures Batch(SimpleStep(cfg, parse, world), tasks, files).0.Results? ==>
              |Batch(SimpleStep(cfg, parse, world), tasks, files).0.results| == Answered(tasks)
  {
    var step := SimpleStep(cfg, parse, world);
    forall i: nat, f: set<string>, t: Json | step(i, f, t).0.Emit?
      ensures if Skips(t) then step(i, f, t).0.entries == [] else 1 <= |step(i, f, t).0.entries| <= 1
    {
      assert step(i, f, t) == SimpleTask(cfg, parse, world(i), f, t);
    }
    BatchLength(step, tasks, files, 1);
  }

  /** The enhanced loop appends at least one and at most two predictions per
      task that has an audio reference, and none for a task without one. */
  lemma EnhancedPerTaskBounds(cfg: Config, parse: string -> Option<Json>, world: nat -> EnhancedWorld,
                              tasks: seq<Json>, files: set<string>)
    ensures Batch(EnhancedStep(cfg, parse, world), tasks, files).0.Results? ==>
              Answered(tasks) <= |Batch(EnhancedStep(cfg, parse, world), tasks, files).0.results| <= 2 * Answered(tasks)
  {
    var step := EnhancedStep(cfg, parse, world);
    forall i: nat, f: set<string>, t: Json | step(i, f, t).0.Emit?
      ensures if Skips(t) then step(i, f, t).0.entries == [] else 1 <= |step(i, f, t).0.entries| <= 2
    {
      assert step(i, f, t) == EnhancedTask(cfg, parse, world(i), f, t);
    }
    BatchLength(step, tasks, files, 2);
  }

  /** Because the enhanced analysis never raises, its outcome is always the
      formatted analysis (or the failure entries formatting causes). */
  lemma EnhancedOutcomeFormats(gen: (nat, Prompt) -> Reply, parse: string -> Option<Json>, ids: nat -> string)
    ensures AnalyzeFrom(gen, parse, 0).Returned?
    ensures EnhancedOutcome(gen, parse, ids) == EnhancedEmit(AnalyzeFrom(gen, parse, 0).value, ids)
  {
    AnalyzeReturns(gen, parse, 0);
  }

  /** A task whose data is not a dict, whose reference is not a string, or
      whose download fails appends the failure entry alone; nothing is left
      behind by the enhanced resolver unless the refreshed token is not a
      string, which leaves the temporary file. */
  lemma EnhancedFailureIsolated(cfg: Config, parse: string -> Option<Json>, w: EnhancedWorld,
                                files: set<string>, task: Json)
    requires task.JObj? && w.net.tempPath !in files
    requires TaskReference(task).BadData?
             || (TaskReference(task).Audio? && !TaskReference(task).url.JStr?)
             || (TaskReference(task).Audio? && TaskReference(task).url.JStr?
                 && ResolveEnhanced(cfg, w.net, files, TaskReference(task).url.s).0.Failed?)
    ensures EnhancedTask(cfg, parse, w, files, task).0 == Emit([FailureEntry(EnhancedVersion)])
    ensures !TokenNotString(cfg.apiKey, w.net.refreshed) ==> EnhancedTask(cfg, parse, w, files, task).1 == files
    ensures EnhancedTask(cfg, parse, w, files, task).1 <= files + {w.net.tempPath}
  {
  }

  /** The same for the simple loop, except that a failed download leaves its
      temporary file. */
  lemma SimpleFailureIsolated(cfg: Config, parse: string -> Option<Json>, w: SimpleWorld,
                              files: set<string>, task: Json)
    requires task.JObj?
    requires TaskReference(task).BadData?
             || (TaskReference(task).Audio? && !TaskReference(task).url.JStr?)
             || (TaskReference(task).Audio? && TaskReference(task).url.JStr?
                 && ResolveSimple(cfg, w.net, files, TaskReference(task).url.s).0.Failed?)
    ensures SimpleTask(cfg, parse, w, files, task).0 == Emit([FailureEntry(SimpleVersion)])
  {
  }

  /** A simple task whose reply is not an answer appends the failure entry;
      an answer that does not parse still yields the default analysis,
      formatted: one transcription, the language and the summary. */
  lemma SimpleOutcomeCases(reply: Reply, parse: string -> Option<Json>)
    ensures !reply.Answer? ==> SimpleOutcome(reply, parse) == FailureEntry(SimpleVersion)
    ensures reply.Answer? && parse(Clean(reply.text)).None? ==>
              SimpleOutcome(reply, parse).score == 0.95 && |SimpleOutcome(reply, parse).result| == 3
  {
    if reply.Answer? && parse(Clean(reply.text)).None? {
      SimpleDefaultFormatted();
    }
  }

  /** The parse-failure record formats into three entries. */
  lemma SimpleDefaultFormatted()
    ensures FormatSimple(SimpleParseDefault).Some?
    ensures |FormatSimple(SimpleParseDefault).value.result| == 3
  {
    var a := SimpleParseDefault.fields;
    var transcription := Get(a, "transcription");
    assert transcription.items[0].JObj?;
    assert ListOfDicts(transcription);
    assert ListOfDicts(Get(a, "speakers"));
    assert ListOrEmpty(Get(a, "speakers")) == [];
    assert |TranscriptionEntries(ListOrEmpty(transcription))| == 1;
    assert Has(a, "language") && Has(a, "summary");
  }

  /** Enhanced clean-up: with a fresh temporary file, a task leaves at most
      that file behind, none when it lives under "/tmp" unless the refreshed
      token is not a string, and it removes only files under "/tmp". */
  lemma EnhancedTaskFiles(cfg: Config, parse: string -> Option<Json>, w: EnhancedWorld,
                          files: set<string>, task: Json)
    requires GlobSound(cfg) && w.net.tempPath !in files
    ensures var after := EnhancedTask(cfg, parse, w, files, task).1;
            after <= files + {w.net.tempPath}
            && (StartsWith(w.net.tempPath, "/tmp") && !TokenNotString(cfg.apiKey, w.net.refreshed) ==> after <= files)
            && forall p :: p in files && p !in after ==> StartsWith(p, "/tmp")
  {
    var ref := TaskReference(task);
    if ref.Audio? && ref.url.JStr? {
      var url := ref.url.s;
      EnhancedOwnership(cfg, w.net, files, url);
      EnhancedTaskAfter(cfg, parse, w, files, task, url);
      var (res, downloaded) := ResolveEnhanced(cfg, w.net, files, url);
      var after := EnhancedTask(cfg, parse, w, files, task).1;
      if !res.Failed? {
        assert after == DropTmp(res.path, downloaded);
      }
      ResolvedThenCleaned(res, downloaded, after, files, w.net.tempPath,
                          TokenNotString(cfg.apiKey, w.net.refreshed));
    }
  }

  /** The files an enhanced task with a string reference leaves: the
      resolved path is dropped when it lies under "/tmp", unless the
      resolution failed. */
  lemma EnhancedTaskAfter(cfg: Config, parse: string -> Option<Json>, w: EnhancedWorld,
                          files: set<string>, task: Json, url: string)
    requires TaskReference(task) == Audio(JStr(url))
    ensures var (res, downloaded) := ResolveEnhanced(cfg, w.net, files, url);
            EnhancedTask(cfg, parse, w, files, task).1 == if res.Failed? then downloaded else DropTmp(res.path, downloaded)
  {
  }

  /** Set reasoning behind the enhanced clean-up, with the resolver's
      ownership facts and the "/tmp" deletion rule as hypotheses. */
  lemma ResolvedThenCleaned(res: Resolution, downloaded: set<string>, after: set<string>,
                            files: set<string>, temp: string, leaky: bool)
    requires temp !in files
    requires res.Local? ==> res.path in files && downloaded == files
    requires res.Downloaded? ==> res.path == temp && downloaded == files + {temp}
    requires res.Failed? && !leaky ==> downloaded == files
    requires res.Failed? && leaky ==> downloaded == files || downloaded == files + {temp}
    requires res.Failed? ==> after == downloaded
    requires !res.Failed? ==> after <= downloaded && downloaded - after <= {res.path}
    requires !res.Failed? ==> (res.path !in after <==> res.path !in downloaded || StartsWith(res.path, "/tmp"))
    ensures after <= files + {temp}
    ensures StartsWith(temp, "/tmp") && !leaky ==> after <= files
    ensures forall p :: p in files && p !in after ==> StartsWith(p, "/tmp")
  {
    forall p | p in files && p !in after
      ensures StartsWith(p, "/tmp")
    {
      assert p in downloaded - after;
      assert p == res.path;
    }
  }

  /** A temporary file outside "/tmp" (a `TMPDIR` elsewhere) survives the
      enhanced loop. */
  lemma EnhancedTempOutsideTmpStays(cfg: Config, parse: string -> Option<Json>, w: EnhancedWorld,
                                    files: set<string>, task: Json)
    requires GlobSound(cfg) && w.net.tempPath !in files && !StartsWith(w.net.tempPath, "/tmp")
    requires TaskReference(task).Audio? && TaskReference(task).url.JStr?
    requires ResolveEnhanced(cfg, w.net, files, TaskReference(task).url.s).0.Downloaded?
    ensures EnhancedTask(cfg, parse, w, files, task).1 == files + {w.net.tempPath}
  {
    EnhancedOwnership(cfg, w.net, files, TaskReference(task).url.s);
  }

  /** An existing absolute path is used in place; the enhanced loop then
      deletes it if it is under "/tmp" and keeps it otherwise. */
  lemma EnhancedLocalFileFate(cfg: Config, parse: string -> Option<Json>, w: EnhancedWorld,
                              files: set<string>, task: Json, path: string)
    requires TaskReference(task) == Audio(JStr(path))
    requires StartsWith(path, "/") && path in files
    ensures StartsWith(path, "/tmp") ==> EnhancedTask(cfg, parse, w, files, task).1 == files - {path}
    ensures !StartsWith(path, "/tmp") ==> EnhancedTask(cfg, parse, w, files, task).1 == files
  {
    AbsolutePathWins(cfg, w.net, files, path);
  }

  /** Simple clean-up: whatever path was resolved is deleted, so a file
      found locally is removed, a download leaves nothing, and a failed
      download leaves its temporary file. */
  lemma SimpleTaskFiles(cfg: Config, parse: string -> Option<Json>, w: SimpleWorld,
                        files: set<string>, task: Json, url: string)
    requires TaskReference(task) == Audio(JStr(url)) && w.net.tempPath !in files
    ensures var res := ResolveSimple(cfg, w.net, files, url).0;
            var after := SimpleTask(cfg, parse, w, files, task).1;
            (res.Local? ==> res.path in files && after == files - {res.path})
            && (res.Downloaded? ==> after == files)
            && (res.Failed? ==> after == files + {w.net.tempPath})
  {
    SimpleOwnership(cfg, w.net, files, url);
    SimpleTaskAfter(cfg, parse, w, files, task, url);
    var (res, downloaded) := ResolveSimple(cfg, w.net, files, url);
    ResolvedThenDeleted(res, downloaded, SimpleTask(cfg, parse, w, files, task).1, files, w.net.tempPath);
  }

  /** Set reasoning behind `SimpleTaskFiles`: deleting the resolved path
      after the resolver's own changes. */
  lemma ResolvedThenDeleted(res: Resolution, downloaded: set<string>, after: set<string>, files: set<string>, temp: string)
    requires temp !in files
    requires res.Local? ==> res.path in files && downloaded == files
    requires res.Downloaded? ==> res.path == temp && downloaded == files + {temp}
    requires res.Failed? ==> downloaded == files + {temp}
    requires after == if res.Failed? then downloaded else downloaded - {res.path}
    ensures res.Local? ==> after == files - {res.path}
    ensures res.Downloaded? ==> after == files
    ensures res.Failed? ==> after == files + {temp}
  {
  }

  /** The files a simple task with a string reference leaves: the resolved
      path is deleted unless the download failed. */
  lemma SimpleTaskAfter(cfg: Config, parse: string -> Option<Json>, w: SimpleWorld,
                        files: set<string>, task: Json, url: string)
    requires TaskReference(task) == Audio(JStr(url))
    ensures var (res, downloaded) := ResolveSimple(cfg, w.net, files, url);
            SimpleTask(cfg, parse, w, files, task).1 == if res.Failed? then downloaded else downloaded - {res.path}
  {
  }

  /** The simple loop deletes the original recording from the shared mount
      when the reference is a rooted path found there. */
  lemma SimpleDeletesMountedMedia(cfg: Config, parse: string -> Option<Json>, w: SimpleWorld,
                                  files: set<string>, task: Json, url: string)
    requires TaskReference(task) == Audio(JStr(url))
    requires StartsWith(url, "/") && LabelStudioRoot + url in files
    ensures SimpleTask(cfg, parse, w, files, task).1 == files - {LabelStudioRoot + url}
  {
    SimpleRootedOrder(cfg, w.net, files, url);
  }

  /** If every step of a batch only removes files from the files it is given
      (whenever those are among the initial ones), the batch does too. */
  lemma {:induction false} BatchShrinks(step: TaskStep, tasks: seq<Json>, files: set<string>)
    requires forall i: nat, f: set<string>, t: Json :: f <= files ==> step(i, f, t).1 <= f
    ensures Batch(step, tasks, files).1 <= files
    decreases |tasks|
  {
    if tasks != [] {
      BatchShrinks(step, tasks[..|tasks| - 1], files);
    }
  }

  /** With every temporary file fresh and under "/tmp", the enhanced request
      leaves no file behind. */
  lemma EnhancedNoResidue(cfg: Config, parse: string -> Option<Json>, world: nat -> EnhancedWorld,
                          request: map<string, Json>, files: set<string>)
    requires GlobSound(cfg)
    requires forall i: nat :: world(i).net.tempPath !in files && StartsWith(world(i).net.tempPath, "/tmp")
    requires forall i: nat :: !TokenNotString(cfg.apiKey, world(i).net.refreshed)
    ensures PredictEnhancedSpec(cfg, parse, world, request, files).1 <= files
  {
    var step := EnhancedStep(cfg, parse, world);
    forall i: nat, f: set<string>, t: Json | f <= files
      ensures step(i, f, t).1 <= f
    {
      EnhancedTaskFiles(cfg, parse, world(i), f, t);
    }
    if "tasks" in request && Truthy(request["tasks"]) && request["tasks"].JArr? {
      BatchShrinks(step, request["tasks"].items, files);
    }
  }
}
