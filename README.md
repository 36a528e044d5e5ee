# Gemini audio pre-annotation backends, modelled in Dafny

Two small FastAPI services pre-annotate audio tasks for Label Studio with
Google Gemini: `src/enhanced_api.py` (diarised segments with language,
gender and emotion per region, a summary, on-demand transcription of one
region) and `src/simple_api.py` (transcription, language, speakers and a
summary). For every task of a `/predict` request they:

1. resolve each task's audio reference to a local file (`download_audio`):
   - probe the host's media store and the shared mount `/mnt/mata/labelStudio`;
   - otherwise download into a temporary file, authenticated with the
     token from `get_access_token`;
2. ask the model for an analysis (`analyze_audio_with_gemini`), with
   retries and fixed fallback records in the enhanced backend;
3. flatten the analysis into Label Studio's result list
   (`format_enhanced_predictions`, `format_label_studio_predictions`);
4. clean up the audio file and isolate failures, so that a task that fails
   still yields an empty prediction.

The model keeps the programs' own structure. Each operation that works step
by step is a `method` that mirrors the code:
- `download_audio`'s early returns;
- the `while retry_count < max_retries` loop;
- the `predictions.append` loops;
- the `for task in tasks` loop;
- the `try`/`finally` clean-up.

Each such method is proved equal to a specification function over values.
The properties are proved about those functions.

The outside world is a parameter:
- the file system is a `FileSystem` object holding the set of existing
  paths, which methods change with `CreateTemp` and `Unlink`;
- `glob`, `urllib.parse.unquote` and `json.loads` are functions;
- a model call is an abstract reply: it raises, it has no parts (with a
  finish reason), or it has text;
- the download is the name `tempfile` picks and whether the GET succeeds;
- ffmpeg is a function from the command to its outcome;
- region ids (`uuid4()[:8]`) are a function of the segment's position.

Modules, in dependency order:

| file | module | what |
|---|---|---|
| pyjson.dfy | PyJson | decoded JSON values, Python truthiness, `dict.get` |
| text.dfy | Text | `startswith`/`endswith`, `str.strip()`, `str.lstrip(c)`, the code-fence stripping |
| paths.dfy | Paths | `FileSystem`, `os.path.join`, first-existing-path probes |
| patterns.dfy | Patterns | the four regular expressions of the enhanced resolver, as leftmost searches with lazy groups |
| credentials.dfy | Credentials | `get_access_token`, the `Authorization` header, the download URL |
| resolver.dfy | Resolver | both `download_audio` variants |
| gemini.dfy | ModelClient | the enhanced retry loop and its fallbacks, `transcribe_segment_with_gemini`, the simple analysis |
| formatter.dfy | Formatter | both result formatters |
| segments.dfy | Segments | `extract_audio_segment` and the `/transcribe-segment` endpoint |
| predict.dfy | Predict | both `/predict` loops |

Some behaviour follows the code rather than its comments:
- A formatter handed an analysis that is not a dict, or whose `segments`,
  `transcription` or `speakers` is truthy but not a list of dicts, raises
  (`AttributeError`/`TypeError`). `/predict` then appends a failure entry.
  The formatters model this as `None`.
- A task that is not a dict makes the error handler's own `task.get('id')`
  raise, so the whole request fails with 500.
- A `tasks` value that is truthy but not a list also fails the request with
  500.
- `/transcribe-segment` turns every error, including the resolver's 400 for
  `blob:` references, into 500.
- `get_access_token` returns whatever truthy value the refresh answer holds
  under `access`. When that value is not a string, `token.startswith` raises
  outside the enhanced download's inner `try`. The outer handler answers 500,
  and the temporary file is never unlinked.

## Model

| member | source | states |
|---|---|---|
| PyJson.GetOr | src/enhanced_api.py:539-540 | `d.get(key, default)`: the stored value when the key is present, the default otherwise |
| Text.StripBounds | src/enhanced_api.py:461 | `str.strip()` keeps a slice that neither starts nor ends with Python whitespace, and only whitespace lies outside it |
| Text.LStrip | src/enhanced_api.py:307 | `url.lstrip('/')` removes exactly the leading run of the character: the result is a suffix, everything removed is that character, and the result does not start with it |
| Text.StripFence | src/enhanced_api.py:463-466 | the reply is exactly the optional leading "```json" (7 characters), the result, and the optional trailing "```" (3 characters), each removed at most once |
| Text.StripFenceNoFence | src/enhanced_api.py:463-466 | text with neither fence is unchanged |
| Text.StripFenceOnce | src/enhanced_api.py:463-466 | a doubled fence loses only one copy at each end |
| Paths.FileSystem.Unlink | src/enhanced_api.py:718-719 | `os.unlink` removes exactly that path |
| Paths.FileSystem.CreateTemp | src/enhanced_api.py:325-327 | creating the named temporary file adds exactly that path |
| Paths.Join | src/enhanced_api.py:256 | `os.path.join`: an absolute second part wins; otherwise the result starts with the first part and ends with the second |
| Paths.FirstExisting | src/enhanced_api.py:304-312 | the candidate loop returns a path iff some candidate exists, and then the first one that exists |
| Paths.Probe | src/enhanced_api.py:244 | `os.path.exists(p)` returns `p` iff it exists |
| Paths.OrElse | src/enhanced_api.py:243-319 | the sequence of early returns: the first probe that hits wins |
| Paths.DropTmp | src/enhanced_api.py:718-719 | the file is removed iff it exists and its path starts with "/tmp" |
| Patterns.StripHost | src/enhanced_api.py:240 | `re.sub(r'^https?://[^/]+', '', url)` leaves a suffix; it changes the URL iff it has a scheme and a host; what is removed holds no '/' after the scheme; the rest is empty or starts with '/' |
| Patterns.StripHostKeepsRooted | src/enhanced_api.py:240 | a rooted path is not changed |
| Patterns.StripHostRoundTrip | src/enhanced_api.py:240 | scheme + host + path strips to exactly path |
| Patterns.DigitsFrom | src/enhanced_api.py:252 | `\d+` takes the longest run of digits |
| Patterns.LazyEnd | src/enhanced_api.py:252 | a lazy `.+?` stops at the first position followed by the stop character or the end, never crossing a newline |
| Patterns.LazyGroup | src/enhanced_api.py:252 | the lazy group is a non-empty, newline-free slice followed by the stop character or the end |
| Patterns.LazyEndRunsToEnd | src/enhanced_api.py:252 | without stop characters or newlines the lazy group runs to the end |
| Patterns.UploadAt | src/enhanced_api.py:252 | a match at a position is "/data/upload/" + digits + "/" + name, exactly at that position |
| Patterns.UploadSearch | src/enhanced_api.py:252 | `re.search` returns the leftmost position where the upload pattern matches, or none if no position does |
| Patterns.UploadRoundTrip | src/enhanced_api.py:252-255 | the upload reference built from a project id and a name gives back that id and name |
| Patterns.LocalFilesAt | src/enhanced_api.py:269 | a match at a position is "/data/local-files/?d=" + path, exactly at that position |
| Patterns.LocalFilesSearch | src/enhanced_api.py:269 | leftmost match of the local-files pattern, or none if no position matches |
| Patterns.LocalFilesRoundTrip | src/enhanced_api.py:269-271 | the local-files reference of a path gives back the path |
| Patterns.FirstExtension | src/enhanced_api.py:277 | the alternation tries mp3, wav, ogg, flac and m4a in order; a hit ends right after one of them |
| Patterns.ExtensionEnd | src/enhanced_api.py:277 | an extension match starts at a '.' and ends after one of the five extensions |
| Patterns.GreedyDot | src/enhanced_api.py:277 | the greedy `[^/]+` backtracks to the last '.' before the next '/' that is followed by an extension |
| Patterns.LastWhere | src/enhanced_api.py:277 | backtracking from the right finds the last position in the range that passes the test, and none when no position does |
| Patterns.AudioAt | src/enhanced_api.py:277 | a file-name match at a position ends before the next '/' and is followed by '?' or the end |
| Patterns.AudioSearch | src/enhanced_api.py:277 | leftmost position where the file-name pattern matches, or none |
| Patterns.FirstWhere | src/enhanced_api.py:277 | the search scans left to right: the result is the first position in range that matches, or none when no position does |
| Patterns.AudioNameOfPath | src/enhanced_api.py:277-279 | for dir/base.ext the file-name pattern finds exactly base.ext |
| Credentials.AccessToken | src/enhanced_api.py:191-217 | no key gives no token; a JWT key is exchanged when the refresh answers a truthy `access` value of any JSON type, which is then returned as it is; any other key is used unchanged |
| Credentials.AuthHeader | src/enhanced_api.py:344-349 | no header iff the token is missing or falsy; a truthy non-string token raises at `startswith`; a string token goes as "Bearer" when it starts "eyJ" and as "Token" otherwise |
| Credentials.RefreshedSchemeFollowsToken | src/enhanced_api.py:344-349 | the scheme follows the token actually sent, so a refreshed non-JWT string token goes as "Token" |
| Credentials.DownloadUrl | src/enhanced_api.py:329-335 | http(s) URLs unchanged; a rooted path is appended to the base URL; anything else goes to base + "/data/" |
| Credentials.DownloadRequest | src/simple_api.py:147-169 | no request iff the refreshed token is truthy but not a string (the header code raises); otherwise the GET goes to the download URL, with a header iff an API key is configured, "Token" + key for a non-JWT key |
| Resolver.LastComponent | src/enhanced_api.py:262 | `filename.split('/')[-1]`: the slash-free suffix after the last '/' |
| Resolver.SearchProjectDirs | src/enhanced_api.py:282-292 | the project-directory loop returns what the name-search specification gives: per directory, the first glob hit, then the exact path |
| Resolver.ProbeMediaStore | src/enhanced_api.py:243-292 | the absolute, upload, local-files and name-search probes, with their early returns, equal their specification |
| Resolver.ProbeMounts | src/enhanced_api.py:294-319 | the bare-name, rooted and `file://` probes equal their specification |
| Resolver.DownloadAudioEnhanced | src/enhanced_api.py:220-374 | the outcome and the files afterwards equal `ResolveEnhanced`: blob check, host strip, local probes, then a temporary download that is unlinked on failure |
| Resolver.DownloadAudioSimple | src/simple_api.py:122-180 | the outcome and the files afterwards equal `ResolveSimple`: two rooted candidates, `file://`, then a download whose temporary file is kept on failure |
| Resolver.SearchDirsExists | src/enhanced_api.py:282-292 | the name search only returns paths that exist |
| Resolver.GlobFirstExists | src/enhanced_api.py:263-266 | `matches[0]` exists |
| Resolver.UploadProbeExists | src/enhanced_api.py:252-266 | the upload probe only returns paths that exist |
| Resolver.EnhancedLocalExists | src/enhanced_api.py:243-319 | every local hit of the enhanced resolver exists |
| Resolver.EnhancedOwnership | src/enhanced_api.py:324-374 | a local hit changes no file; a download adds exactly its fresh temporary file; a failure leaves the files as they were, except that a non-string refreshed token leaves the temporary file behind with a 500 |
| Resolver.EnhancedTokenLeak | src/enhanced_api.py:325-374 | with no local hit, a non-string refreshed token answers 500 and leaves the new temporary file behind |
| Resolver.BlobRejected | src/enhanced_api.py:233-237 | the outcome is 400 with no request iff the reference starts with "blob:" |
| Resolver.AbsolutePathWins | src/enhanced_api.py:243-246 | an existing absolute path is returned unchanged, ahead of every other probe |
| Resolver.AbsolutePathAfterHostStrip | src/enhanced_api.py:240-246 | a URL whose host-stripped form is an existing absolute path resolves to that path, ahead of every other probe |
| Resolver.EnhancedRetargetsHost | src/enhanced_api.py:329-349 | a reference with a host is fetched from base URL + its path, unless a non-string refreshed token makes the header code raise (500) |
| Resolver.UploadExactBeforeGlob | src/enhanced_api.py:256-266 | the exact media path wins over the first glob match, which wins over later probes |
| Resolver.UploadReferenceServedLocally | src/enhanced_api.py:252-260 | an upload reference whose file is in the media store resolves to that file, touching nothing |
| Resolver.SimpleLeaksTempFile | src/simple_api.py:142-180 | a failed simple download leaves its temporary file |
| Resolver.SimpleRootedOrder | src/simple_api.py:126-134 | mount + url is tried first, then mount + "/" + url without leading slashes |
| Resolver.SimpleFileUri | src/simple_api.py:137-140 | `file://` drops exactly 7 characters and an existing path is used |
| Resolver.SimpleHttpDownloads | src/simple_api.py:148-169 | an http(s) reference is downloaded from exactly that URL, unless a non-string refreshed token makes the header code raise (500) |
| Resolver.Fetch | src/enhanced_api.py:325-368 | a download yields the temporary path only when the GET succeeds; every failure is a 500; no request is sent exactly when the refreshed token is truthy but not a string |
| Resolver.SimpleLocalExists | src/simple_api.py:126-140 | every local hit of the simple resolver is an existing file |
| Resolver.SimpleOwnership | src/simple_api.py:122-180 | a local hit changes no file; a download adds exactly its temporary file; a failure leaves the temporary file behind |
| Resolver.EnhancedCoversSimpleMount | src/enhanced_api.py:302-312 | when no media-store probe hits, the enhanced resolver finds the same mount file as the simple one |
| ModelClient.CleanReply | src/enhanced_api.py:461-466 | the reassignments of `text` compute strip followed by fence stripping |
| ModelClient.AfterFailure | src/enhanced_api.py:471-495 | a failed attempt increments `retry_count` and returns its fallback exactly when the count reaches 3 |
| ModelClient.AttemptStep | src/enhanced_api.py:405-521 | one pass either returns a value (the parsed JSON or a fallback record) or continues with `retry_count` raised by one or two and still below 3 |
| ModelClient.Attempt | src/enhanced_api.py:405-521 | the loop body with its `try` and both handlers computes `AttemptStep` |
| ModelClient.AnalyzeAudio | src/enhanced_api.py:399-524 | the `while` loop computes `AnalyzeFrom` from `retry_count == 0` |
| ModelClient.AnalyzeReturns | src/enhanced_api.py:404-524 | the analysis always returns a value (the parsed JSON or a fallback record): the raise after the loop is unreachable |
| ModelClient.AnalyzeReadsThreeCalls | src/enhanced_api.py:401-404 | only calls made while `retry_count < 3` matter |
| ModelClient.AnalyzeResultOrigin | src/enhanced_api.py:399-524 | the result is one of the three fallback records or the parse of a received reply |
| ModelClient.NonSafetyBlockFallsBack | src/enhanced_api.py:451-458 | a non-safety block, or no candidate, returns `get_fallback_response()` at once |
| ModelClient.SafetyRetry | src/enhanced_api.py:425-447 | after a safety block the simplified prompt's parsed answer is returned, and a second block returns the safety fallback |
| ModelClient.UnparseableSafetyRetryRestarts | src/enhanced_api.py:434-495 | an unparseable safety retry counts twice and the loop resumes at `retry_count == 2` with the full prompt |
| ModelClient.ThreeFailures | src/enhanced_api.py:471-521 | three raising calls give the transport record; three unparseable answers give the parse record |
| ModelClient.FallbackRecords | src/enhanced_api.py:476-520 | both last-attempt records have one segment with confidence 0.0, no speakers, no languages and duration 0 |
| ModelClient.ErrorRecordShape | src/enhanced_api.py:476-520 | a last-attempt record carries its message as both the summary and the one segment's text, with confidence 0.0, no speakers, no languages and duration 0 |
| ModelClient.SafetyRecord | src/enhanced_api.py:377-395 | `get_fallback_response()` has one segment and lists the language "unknown" |
| ModelClient.TranscribeSegment | src/enhanced_api.py:824-873 | never raises: a parsed answer is returned, otherwise an error record ("Unknown", "Neutral", 0.0) whose transcription names the failure |
| ModelClient.SimpleAnalyze | src/simple_api.py:183-220 | 500 iff the reply has no text (raise or no parts); an unparseable answer gives the fixed default |
| ModelClient.SimpleParseDefaultShape | src/simple_api.py:208-217 | the default has one transcription segment, language "unknown", summary "Analysis failed" |
| Formatter.SegmentEntries | src/enhanced_api.py:533-619 | a segment yields one entry plus one per truthy optional field |
| Formatter.SegmentEntriesOnRegion | src/enhanced_api.py:536-555 | all of a segment's entries share its id, start and end; the first is its speaker label |
| Formatter.SegmentEntriesOrdered | src/enhanced_api.py:542-619 | a segment's entries come as labels, language, gender, emotion, transcription |
| Formatter.SegmentEntriesPresence | src/enhanced_api.py:557-619 | each optional entry is present iff its field is truthy |
| Formatter.FormatEnhanced | src/enhanced_api.py:527-637 | formatting raises iff the analysis is not a dict or `segments` is truthy but not a list of dicts; score 0.95, version "gemini-1.5-flash-enhanced" |
| Formatter.AppendSegment | src/enhanced_api.py:542-619 | the appends for one segment add exactly its entries |
| Formatter.AppendAttribute | src/enhanced_api.py:557-619 | each optional attribute append adds its choices or textarea entry iff the field is truthy, and nothing otherwise |
| Formatter.FormatEnhancedPredictions | src/enhanced_api.py:527-637 | the append loop computes `FormatEnhanced` |
| Formatter.SegmentBlocks | src/enhanced_api.py:533-619 | the k-th segment's entries occupy the block after those of the segments before it |
| Formatter.SegmentsLength | src/enhanced_api.py:533-619 | the segment entries number the sum of the segments' widths |
| Formatter.SegmentsHaveIds | src/enhanced_api.py:533-619 | every segment entry has a region id and none is the summary |
| Formatter.EnhancedShape | src/enhanced_api.py:621-637 | length is the sum of widths plus one for a summary; the summary is last iff `summary_uzbek` is truthy, and it is the only entry without an id |
| Formatter.SpeakerAndTextOnly | src/enhanced_api.py:542-619 | a segment with only a speaker and a text yields exactly two entries on one region |
| Formatter.TranscriptionEntries | src/simple_api.py:229-242 | one textarea entry per transcription segment, in order |
| Formatter.SpeakerEntries | src/simple_api.py:259-279 | a speaker yields one entry per truthy gender and emotion |
| Formatter.SpeakerEntriesOrdered | src/simple_api.py:259-279 | a truthy gender comes first, as the gender choice with the speaker's value; a truthy emotion comes last, as the emotion choice with its value; each kind appears iff its field is truthy |
| Formatter.FormatSimple | src/simple_api.py:223-297 | formatting raises iff the analysis is not a dict or a truthy `transcription`/`speakers` is not a list of dicts; score 0.95, version "gemini-1.5-flash" |
| Formatter.AppendSpeaker | src/simple_api.py:259-279 | the appends for one speaker add exactly its entries |
| Formatter.TranscriptionLoop | src/simple_api.py:229-242 | the transcription loop appends exactly the transcription entries, or raises on a non-dict segment |
| Formatter.SpeakerLoop | src/simple_api.py:257-279 | the speaker loop appends exactly the speakers' entries, or raises on a non-dict speaker |
| Formatter.FormatLabelStudioPredictions | src/simple_api.py:223-297 | the append sequence computes `FormatSimple` |
| Formatter.SpeakersShape | src/simple_api.py:256-279 | speaker entries number the truthy genders and emotions and are gender/emotion choices without ids |
| Formatter.SpeakersPrefix | src/simple_api.py:257-279 | the entries of the first k speakers are a prefix of the entries of all speakers |
| Formatter.SpeakerBlocks | src/simple_api.py:257-279 | speaker k's entries fill the block right after those of speakers 0..k-1, in speaker order |
| Formatter.SimpleShape | src/simple_api.py:223-297 | transcriptions first with start/end/text defaults; the language entry, with no start or end, iff `language` is truthy; the summary last, carrying the `summary` value, iff `summary` is truthy; no entry has an id |
| Segments.CutFor | src/enhanced_api.py:791-803 | the command starts at `start_time` and lasts `end_time - start_time`, ending at `end_time` |
| Segments.ExtractAudioSegment | src/enhanced_api.py:784-821 | the method computes `ExtractAsWritten` on the ffmpeg outcome of its command |
| Segments.ExtractCleansOnError | src/enhanced_api.py:805-821 | success iff ffmpeg exits 0, handing over the new file; a non-zero exit or crash leaves the files as they were |
| Segments.TimeoutLeaksSegment | src/enhanced_api.py:816-817 | on timeout the segment file remains |
| Segments.ExtractIntendedNoLeak | src/enhanced_api.py:816-820 | with the timeout cleaned up, no failure leaves a file, and nothing else changes |
| Segments.TranscribeSegmentRequest | src/enhanced_api.py:876-920 | the endpoint computes `TranscribeEndpoint`: download, cut, transcribe, then the `finally` clean-up |
| Segments.TranscribeDownloaded | src/enhanced_api.py:892-920 | after the download, the cut, the transcription and the `finally` clean-up compute `TranscribeResolved` |
| Segments.ResolvedFiles | src/enhanced_api.py:892-920 | with the audio file present, an ffmpeg timeout answers 500 and leaves the segment file; otherwise only the audio file under "/tmp" is removed |
| Segments.EndpointBlobIs500 | src/enhanced_api.py:911-913 | a `blob:` reference is answered with 500 and touches no file |
| Segments.EndpointTimeoutLeaks | src/enhanced_api.py:892-920 | after an ffmpeg timeout the endpoint answers 500 and the segment file is still there |
| Segments.EndpointCleansUp | src/enhanced_api.py:915-920 | without a timeout and with temporary files under "/tmp", a request leaves at most its temporary download, and no file at all unless the refreshed token is a non-string |
| Predict.FailureEntry | src/enhanced_api.py:724-728 | the failure entry has no results, score 0.0 and the backend's version |
| Predict.TaskReference | src/enhanced_api.py:692-697 | a non-dict task is the only one whose handling aborts; a returned reference is truthy |
| Predict.RejectedSticks | src/enhanced_api.py:689-722 | once the handler raises, later tasks change nothing |
| Predict.BatchStatus | src/enhanced_api.py:689-731 | the loop only fails with 500 |
| Predict.BatchRejectsIff | src/enhanced_api.py:689-731 | the loop fails iff some task is not a dict |
| Predict.BatchPrefix | src/enhanced_api.py:689-731 | later tasks only append: results of earlier tasks are never undone, and a failing task does not stop the others |
| Predict.BatchLength | src/enhanced_api.py:689-731 | a skipped task adds nothing and every other task adds between one and a bound, so the results count is bounded accordingly |
| Predict.EnhancedEmit | src/enhanced_api.py:706-714 | one or two entries, the first being the formatted prediction or the failure entry |
| Predict.EnhancedEmitTwiceIff | src/enhanced_api.py:710-713 | a task yields two entries iff `segments` is null, false or zero; the second is the failure entry |
| Predict.NullSegmentsEmitTwice | src/enhanced_api.py:710-713 | `{"segments": null}` yields an empty prediction and a failure entry |
| Predict.EnhancedEmitIntendedOne | src/enhanced_api.py:706-713 | the intended appends are one entry per task, agreeing with the code wherever `segments` has a length |
| Predict.EnhancedTask | src/enhanced_api.py:690-728 | only a non-dict task aborts; a skipped task adds nothing; any other adds one or two entries |
| Predict.EnhancedOutcome | src/enhanced_api.py:704-714 | the analysis stage adds one or two entries |
| Predict.AnalyzeAndFormatEnhanced | src/enhanced_api.py:704-714 | the inner `try` computes `EnhancedOutcome` |
| Predict.ProcessEnhancedTask | src/enhanced_api.py:690-728 | one iteration, with its `finally` and `except`, computes `EnhancedTask` |
| Predict.PredictEnhanced | src/enhanced_api.py:673-731 | the endpoint computes the validation followed by the batch fold of `EnhancedTask` |
| Predict.SimpleTask | src/simple_api.py:356-390 | only a non-dict task aborts; a skipped task adds nothing; any other adds exactly one entry |
| Predict.AnalyzeAndFormatSimple | src/simple_api.py:370-376 | the inner `try` computes `SimpleOutcome` |
| Predict.ProcessSimpleTask | src/simple_api.py:356-390 | one iteration computes `SimpleTask` |
| Predict.PredictSimple | src/simple_api.py:327-393 | the endpoint computes the validation followed by the batch fold of `SimpleTask` |
| Predict.PredictStatus | src/enhanced_api.py:679-685 | 422 iff `tasks` is missing or falsy, with no file touched; otherwise any failure is 500 |
| Predict.StepsAbortOnNonDict | src/enhanced_api.py:721-722 | in both loops a task aborts the request iff it is not a dict |
| Predict.EnhancedRejects500 | src/enhanced_api.py:683-722 | the enhanced request fails iff `tasks` is not a list or holds a non-dict |
| Predict.SimpleRejects500 | src/simple_api.py:349-384 | the simple request fails iff `tasks` is not a list or holds a non-dict |
| Predict.SimpleOnePerTask | src/simple_api.py:355-390 | exactly one result per task with an audio reference |
| Predict.EnhancedPerTaskBounds | src/enhanced_api.py:689-728 | between one and two results per task with an audio reference |
| Predict.EnhancedOutcomeFormats | src/enhanced_api.py:704-709 | the analysis never raises, so a task's entries come from formatting its result |
| Predict.EnhancedFailureIsolated | src/enhanced_api.py:721-728 | a bad `data`, a non-string reference or a failed download adds the failure entry alone; the files stay as they were unless a non-string refreshed token leaves the temporary file |
| Predict.SimpleFailureIsolated | src/simple_api.py:383-390 | a bad `data`, a non-string reference or a failed download adds the failure entry alone |
| Predict.SimpleOutcomeCases | src/simple_api.py:370-376 | a reply without text gives the failure entry; an unparseable answer still gives a three-entry prediction |
| Predict.SimpleDefaultFormatted | src/simple_api.py:208-217 | the parse-failure default formats to three entries |
| Predict.EnhancedTaskFiles | src/enhanced_api.py:716-719 | a task leaves at most its temporary file, none when it is under "/tmp" and the refreshed token is not a non-string, and removes only files under "/tmp" |
| Predict.EnhancedTaskAfter | src/enhanced_api.py:716-719 | after the analysis the resolved path is dropped when it is under "/tmp"; after a failed resolution the files are the resolver's |
| Predict.EnhancedTempOutsideTmpStays | src/enhanced_api.py:718-719 | a downloaded file outside "/tmp" is never removed |
| Predict.EnhancedLocalFileFate | src/enhanced_api.py:716-719 | an existing absolute file is deleted iff it is under "/tmp" |
| Predict.SimpleTaskFiles | src/simple_api.py:378-381 | a local hit is deleted, a download leaves nothing, a failed download leaves its temporary file |
| Predict.SimpleTaskAfter | src/simple_api.py:378-381 | after the analysis the resolved path is deleted; after a failed download the files are the resolver's |
| Predict.SimpleDeletesMountedMedia | src/simple_api.py:378-381 | a recording found on the shared mount is deleted after that task |
| Predict.EnhancedNoResidue | src/enhanced_api.py:689-731 | with fresh temporary files under "/tmp", a whole request leaves no file behind |

## Left out

- Network I/O (httpx): the refresh POST and the download GET are reduced to their results. These are the access token the refresh returns, if any, and whether the GET succeeds. The URL and `Authorization` header are modelled exactly; redirects, timeouts and the response body are not.
- The Gemini SDK (`genai.configure`, `upload_file`, `generate_content`) and the prompt texts: a call is an abstract reply, and prompts are opaque. Files uploaded to Gemini are never deleted by the code; the model does not track them.
- `init_gemini` failing for a missing key: it raises inside the same `try` as the call, and is modelled as a raising reply.
- `json.loads`, `glob.glob`, `urllib.parse.unquote` and `os.path.expanduser` are parameters. `GlobSound` assumes only that glob returns existing paths, in any order.
- `print` logging is left out, except for the one enhanced log line that can raise (`len` of `segments`). That line is modelled because it changes the results.
- `uuid.uuid4()`: region ids are an input function.
- Times and JSON numbers are copied through unchanged. No floating-point arithmetic is modelled except `end_time - start_time`, as a real.
- The ffmpeg subprocess: its output file's content, the exact command strings (`str(float)`) and the fixed codec options are left out. Only the outcome (exit code, timeout, crash) and the clean-up are modelled.
- Patterns.DigitsFrom: Python's `\d` also matches non-ASCII decimal digits; the model accepts ASCII digits only.
- FastAPI and pydantic: routing, request-body validation and the `/`, `/health`, `/setup` and `/train` endpoints are left out. So are CORS and start-up. Building `SegmentTranscribeResponse` from the transcription record is an input function that may fail.
- Concurrency: handlers are async. The model runs one request at a time on a file system nobody else changes.
- Exception messages are kept only where a status code is not enough (the ffmpeg errors); HTTP `detail` strings are not modelled.
- Predict.EnhancedNoResidue: holds only when no refreshed token is a non-string. Such a token leaks the temporary file (Resolver.EnhancedTokenLeak), so no clean request is possible then.
- Predict.EnhancedTaskFiles and Segments.EndpointCleansUp: "no file left" likewise excludes a non-string refreshed token; both still bound what remains by the fresh temporary file.
- JSON objects are maps, so the key order of the emitted dicts is not represented. The order of result entries is.
- Segments.ExtractIntended and Predict.EnhancedEmitIntended, the corrected definitions of the two findings, stand beside the model. The model of the program itself (`TranscribeEndpoint`, `EnhancedTask`) follows the code as written.

## Findings

| source | as written | input that shows it | evidently intended | confidence | as-written member | corrected member |
|---|---|---|---|---|---|---|
| src/enhanced_api.py:816-820 | the `TimeoutExpired` handler raises a new exception; the sibling `except Exception` handler does not catch it, so the segment file is never unlinked | ffmpeg running past 30 s: `TimeoutLeaksSegment` shows the file remains, and `EndpointTimeoutLeaks` shows `/transcribe-segment` answers 500 and leaves it too, since `segment_path` was never assigned | a timeout cleans up like the other failures (`ExtractIntendedNoLeak`) | high; not executed | Segments.ExtractAsWritten | Segments.ExtractIntended |
| src/enhanced_api.py:710-713 | after `results.append(prediction)`, the log line calls `len(analysis.get('segments', []))`. This raises `TypeError` when `segments` is null, false or 0, which the formatter accepts. The handler then appends a failure entry for the same task | a model answer `{"segments": null}`: `NullSegmentsEmitTwice` gives two results for one task; `EnhancedEmitTwiceIff` says exactly when | one result per task (`EnhancedEmitIntendedOne`) | high; not executed | Predict.EnhancedEmit | Predict.EnhancedEmitIntended |
