/** The two result formatters: the model's analysis dict translated into
    Label Studio's flat list of prediction entries. Each is given as a
    specification function and as the imperative method that appends to
    `predictions` as the source does, proved equal to it.

    The analysis is whatever `json.loads` produced. Where the source would
    raise (the analysis is not a dict, a truthy field it iterates is not a
    list, or an element of it is not a dict) the formatter yields `None`. */
module Formatter {
  import opened PyJson

  /** The `value` of an entry: a region of the audio (`start`, `end`, a
      one-element list under `key`, and `channel` 0), or a whole-audio value
      holding only the one-element list under `key`. */
  datatype Value =
    | Spanned(start: Json, end: Json, key: string, item: Json)
    | Plain(key: string, item: Json)

  /** One prediction entry; `id` is the region id, absent when not set. */
  datatype Entry = Entry(id: Option<string>, value: Value, fromName: string, toName: string, kind: string, origin: string)

  /** The dict a formatter returns. */
  datatype Prediction = Prediction(result: seq<Entry>, score: real, modelVersion: string)

  /** Every entry targets the audio and is marked as a prediction. */
  function AudioEntry(id: Option<string>, value: Value, fromName: string, kind: string): Entry {
    Entry(id, value, fromName, "audio", kind, "prediction")
  }

  /** `for x in v` followed by `x.get(...)` succeeds exactly on a list of
      dicts (a truthy dict or string iterates keys or characters, which have
      no `get`; numbers and booleans are not iterable). */
  predicate ListOfDicts(v: Json) {
    v.JArr? && forall k :: 0 <= k < |v.items| ==> v.items[k].JObj?
  }

  // -----------------------------------------------------------------------
  // format_enhanced_predictions
  // -----------------------------------------------------------------------

  const EnhancedVersion: string := "gemini-1.5-flash-enhanced"

  /** Number of entries a segment yields: the speaker label plus one per
      truthy optional field. */
  function Width(seg: map<string, Json>): nat {
    1 + (if Has(seg, "language") then 1 else 0) + (if Has(seg, "gender") then 1 else 0)
      + (if Has(seg, "emotion") then 1 else 0) + (if Has(seg, "text") then 1 else 0)
  }

  /** Position of an entry kind within a segment's block. */
  function Rank(fromName: string): nat {
    if fromName == "speaker_labels" then 0
    else if fromName == "language" then 1
    else if fromName == "gender" then 2
    else if fromName == "emotion" then 3
    else 4
  }

  /** An optional attribute of a segment on the segment's region. */
  function Attribute(seg: map<string, Json>, id: string, field: string, key: string, fromName: string, kind: string): Entry
    requires field in seg
  {
    AudioEntry(Some(id), Spanned(GetOr(seg, "start_time", JInt(0)), GetOr(seg, "end_time", JInt(0)), key, seg[field]), fromName, kind)
  }

  /** The speaker-label entry that opens a segment's block; the label
      defaults to "Speaker 1". */
  function LabelsEntry(seg: map<string, Json>, id: string): Entry {
    AudioEntry(Some(id), Spanned(GetOr(seg, "start_time", JInt(0)), GetOr(seg, "end_time", JInt(0)),
                                 "labels", GetOr(seg, "speaker_id", JStr("Speaker 1"))),
               "speaker_labels", "labels")
  }

  /** The entries of one segment: its speaker label, then its language,
      gender, emotion and transcription when present, all on one region. */
  function SegmentEntries(seg: map<string, Json>, id: string): (r: seq<Entry>)
    ensures |r| == Width(seg)
  {
    [LabelsEntry(seg, id)]
    + (if Has(seg, "language") then [Attribute(seg, id, "language", "choices", "language", "choices")] else [])
    + (if Has(seg, "gender") then [Attribute(seg, id, "gender", "choices", "gender", "choices")] else [])
    + (if Has(seg, "emotion") then [Attribute(seg, id, "emotion", "choices", "emotion", "choices")] else [])
    + (if Has(seg, "text") then [Attribute(seg, id, "text", "text", "transcription", "textarea")] else [])
  }

  /** Entries strictly ordered by `Rank`. */
  predicate Ranked(r: seq<Entry>) {
    forall i, j :: 0 <= i < j < |r| ==> Rank(r[i].fromName) < Rank(r[j].fromName)
  }

  /** Two ranked runs, the first ranked wholly below `n` and the second
      wholly at or above it, make one. */
  lemma RankedConcat(a: seq<Entry>, b: seq<Entry>, n: nat)
    requires Ranked(a) && Ranked(b)
    requires forall x <- a :: Rank(x.fromName) < n
    requires forall y <- b :: n <= Rank(y.fromName)
    ensures Ranked(a + b)
  {
    forall i, j | 0 <= i < j < |a + b|
      ensures Rank((a + b)[i].fromName) < Rank((a + b)[j].fromName)
    {
      if j < |a| {
        assert (a + b)[i] == a[i] && (a + b)[j] == a[j];
      } else if i >= |a| {
        assert (a + b)[i] == b[i - |a|] && (a + b)[j] == b[j - |a|];
      } else {
        assert (a + b)[i] in a && (a + b)[j] in b;
      }
    }
  }

  /** Every entry of a segment's block lies on the segment's region and
      carries the segment's id; the block opens with the speaker label. */
  lemma SegmentEntriesOnRegion(seg: map<string, Json>, id: string)
    ensures SegmentEntries(seg, id)[0] == LabelsEntry(seg, id)
    ensures forall e <- SegmentEntries(seg, id) :: e.id == Some(id) && e.fromName != "summary"
              && e.value.Spanned? && e.value.start == GetOr(seg, "start_time", JInt(0)) && e.value.end == GetOr(seg, "end_time", JInt(0))
  {
  }

  /** The kinds of a segment's block come in the fixed order labels,
      language, gender, emotion, transcription. */
  lemma SegmentEntriesOrdered(seg: map<string, Json>, id: string)
    ensures Ranked(SegmentEntries(seg, id))
  {
    var l := [LabelsEntry(seg, id)];
    var la := if Has(seg, "language") then [Attribute(seg, id, "language", "choices", "language", "choices")] else [];
    var g := if Has(seg, "gender") then [Attribute(seg, id, "gender", "choices", "gender", "choices")] else [];
    var em := if Has(seg, "emotion") then [Attribute(seg, id, "emotion", "choices", "emotion", "choices")] else [];
    var t := if Has(seg, "text") then [Attribute(seg, id, "text", "text", "transcription", "textarea")] else [];
    assert Rank("speaker_labels") == 0 && Rank("language") == 1 && Rank("gender") == 2;
    assert Rank("emotion") == 3 && Rank("transcription") == 4;
    assert forall y <- la :: Rank(y.fromName) == 1;
    assert forall y <- g :: Rank(y.fromName) == 2;
    assert forall y <- em :: Rank(y.fromName) == 3;
    assert forall y <- t :: Rank(y.fromName) == 4;
    RankedGrow(l, la, 1);
    RankedGrow(l + la, g, 2);
    RankedGrow(l + la + g, em, 3);
    RankedGrow(l + la + g + em, t, 4);
    assert SegmentEntries(seg, id) == l + la + g + em + t;
  }

  /** A ranked run below `n`, followed by at most one entry of rank `n`,
      is a ranked run below `n + 1`. */
  lemma RankedGrow(a: seq<Entry>, b: seq<Entry>, n: nat)
    requires Ranked(a) && forall x <- a :: Rank(x.fromName) < n
    requires |b| <= 1 && forall y <- b :: Rank(y.fromName) == n
    ensures Ranked(a + b) && forall x <- a + b :: Rank(x.fromName) < n + 1
  {
    RankedConcat(a, b, n);
  }

  /** Each optional kind appears in a segment's block exactly when its field
      is truthy. */
  lemma SegmentEntriesPresence(seg: map<string, Json>, id: string)
    ensures var r := SegmentEntries(seg, id);
      && ((exists e <- r :: e.fromName == "language") <==> Has(seg, "language"))
      && ((exists e <- r :: e.fromName == "gender") <==> Has(seg, "gender"))
      && ((exists e <- r :: e.fromName == "emotion") <==> Has(seg, "emotion"))
      && ((exists e <- r :: e.fromName == "transcription") <==> Has(seg, "text"))
  {
  }

  /** Total number of entries of a list of segments. */
  function TotalWidth(segs: seq<Json>): nat
    requires forall k :: 0 <= k < |segs| ==> segs[k].JObj?
  {
    if segs == [] then 0 else TotalWidth(segs[..|segs| - 1]) + Width(segs[|segs| - 1].fields)
  }

  /** The entries of all segments, segment `k` with region id `ids(k)`. */
  function SegmentsEntries(segs: seq<Json>, ids: nat -> string): seq<Entry>
    requires forall k :: 0 <= k < |segs| ==> segs[k].JObj?
  {
    if segs == [] then []
    else SegmentsEntries(segs[..|segs| - 1], ids) + SegmentEntries(segs[|segs| - 1].fields, ids(|segs| - 1))
  }

  /** The summary entry: whole-audio text, with no region id. */
  function SummaryEntry(summary: Json): Entry {
    AudioEntry(None, Plain("text", summary), "summary", "textarea")
  }

  /** `format_enhanced_predictions(analysis, task_id)`; `ids(k)` is the
      region id drawn for the `k`-th segment. */
  function FormatEnhanced(analysis: Json, ids: nat -> string): (r: Option<Prediction>)
    ensures r.None? <==> !analysis.JObj? || (Has(analysis.fields, "segments") && !ListOfDicts(Get(analysis.fields, "segments")))
    ensures r.Some? ==> r.value.score == 0.95 && r.value.modelVersion == EnhancedVersion
  {
    if !analysis.JObj? then None
    else
      var segments := Get(analysis.fields, "segments");
      if Truthy(segments) && !ListOfDicts(segments) then None
      else
        var entries := if Truthy(segments) then SegmentsEntries(segments.items, ids) else [];
        var summary := if Has(analysis.fields, "summary_uzbek") then [SummaryEntry(analysis.fields["summary_uzbek"])] else [];
        Some(Prediction(entries + summary, 0.95, EnhancedVersion))
  }

  /** One pass of the segment loop: the appends for one segment. */
  method AppendSegment(predictions: seq<Entry>, segment: map<string, Json>, segmentId: string) returns (p: seq<Entry>)
    ensures p == predictions + SegmentEntries(segment, segmentId)
  {
    var startTime := GetOr(segment, "start_time", JInt(0));
    var endTime := GetOr(segment, "end_time", JInt(0));
    p := predictions + [AudioEntry(Some(segmentId),
      Spanned(startTime, endTime, "labels", GetOr(segment, "speaker_id", JStr("Speaker 1"))), "speaker_labels", "labels")];
    p := AppendAttribute(p, segment, segmentId, "language", "choices", "language", "choices");
    p := AppendAttribute(p, segment, segmentId, "gender", "choices", "gender", "choices");
    p := AppendAttribute(p, segment, segmentId, "emotion", "choices", "emotion", "choices");
    p := AppendAttribute(p, segment, segmentId, "text", "text", "transcription", "textarea");
  }

  /** `if segment.get(field): predictions.append(...)` for one optional
      attribute of a segment. */
  method AppendAttribute(predictions: seq<Entry>, segment: map<string, Json>, segmentId: string,
                         field: string, key: string, fromName: string, kind: string) returns (p: seq<Entry>)
    ensures p == predictions + if Has(segment, field) then [Attribute(segment, segmentId, field, key, fromName, kind)] else []
  {
    p := predictions;
    if Has(segment, field) {
      var startTime := GetOr(segment, "start_time", JInt(0));
      var endTime := GetOr(segment, "end_time", JInt(0));
      p := p + [AudioEntry(Some(segmentId), Spanned(startTime, endTime, key, segment[field]), fromName, kind)];
    }
  }

  /** `format_enhanced_predictions` as the source runs it. */
  method FormatEnhancedPredictions(analysis: Json, ids: nat -> string) returns (r: Option<Prediction>)
    ensures r == FormatEnhanced(analysis, ids)
  {
    if !analysis.JObj? {
      return None;
    }
    var predictions: seq<Entry> := [];
    var segments := Get(analysis.fields, "segments");
    if Truthy(segments) {
      if !segments.JArr? {
        return None;
      }
      for i := 0 to |segments.items|
        invariant forall k :: 0 <= k < i ==> segments.items[k].JObj?
        invariant predictions == SegmentsEntries(segments.items[..i], ids)
      {
        if !segments.items[i].JObj? {
          return None;
        }
        predictions := AppendSegment(predictions, segments.items[i].fields, ids(i));
        assert segments.items[..i + 1][..i] == segments.items[..i];
      }
      assert segments.items[..|segments.items|] == segments.items;
      assert ListOfDicts(segments);
      assert predictions == SegmentsEntries(segments.items, ids);
    }
    assert predictions == (if Truthy(segments) then SegmentsEntries(segments.items, ids) else []);
    if Has(analysis.fields, "summary_uzbek") {
      predictions := predictions + [SummaryEntry(analysis.fields["summary_uzbek"])];
    }
    ghost var summary := if Has(analysis.fields, "summary_uzbek") then [SummaryEntry(analysis.fields["summary_uzbek"])] else [];
    assert !(Truthy(segments) && !ListOfDicts(segments));
    assert predictions == (if Truthy(segments) then SegmentsEntries(segments.items, ids) else []) + summary;
    return Some(Prediction(predictions, 0.95, EnhancedVersion));
  }

  /** The segment entries come in blocks, one per segment and in segment
      order: the block of segment `k` starts after the entries of the
      segments before it and is exactly that segment's entries. */
  lemma SegmentBlocks(segs: seq<Json>, ids: nat -> string, k: nat)
    requires forall m :: 0 <= m < |segs| ==> segs[m].JObj?
    requires k < |segs|
    ensures |SegmentsEntries(segs, ids)| == TotalWidth(segs)
    ensures TotalWidth(segs[..k]) + Width(segs[k].fields) <= TotalWidth(segs)
    ensures SegmentsEntries(segs, ids)[TotalWidth(segs[..k])..TotalWidth(segs[..k]) + Width(segs[k].fields)]
            == SegmentEntries(segs[k].fields, ids(k))
  {
    SegmentsLength(segs, ids);
    SegmentsLength(segs[..k], ids);
    SegmentsPrefix(segs, ids, k + 1);
    SegmentsSnoc(segs, ids, k);
    var before := SegmentsEntries(segs[..k], ids);
    var block := SegmentEntries(segs[k].fields, ids(k));
    var upto := SegmentsEntries(segs[..k + 1], ids);
    var all := SegmentsEntries(segs, ids);
    assert |before| == TotalWidth(segs[..k]) && |block| == Width(segs[k].fields);
    BlockAfter(all, before, block);
  }

  /** A sequence that starts with `before + block` holds `block` right
      after `before`. */
  lemma BlockAfter<T>(all: seq<T>, before: seq<T>, block: seq<T>)
    requires |before| + |block| <= |all| && all[..|before| + |block|] == before + block
    ensures all[|before|..|before| + |block|] == block
  {
    forall i | 0 <= i < |block|
      ensures all[|before|..|before| + |block|][i] == block[i]
    {
      assert all[|before| + i] == all[..|before| + |block|][|before| + i];
    }
  }

  /** The entries of the first `k + 1` segments are those of the first `k`
      followed by segment `k`'s. */
  lemma SegmentsSnoc(segs: seq<Json>, ids: nat -> string, k: nat)
    requires forall m :: 0 <= m < |segs| ==> segs[m].JObj?
    requires k < |segs|
    ensures SegmentsEntries(segs[..k + 1], ids) == SegmentsEntries(segs[..k], ids) + SegmentEntries(segs[k].fields, ids(k))
  {
    var next := segs[..k + 1];
    assert next[..k] == segs[..k] && next[k] == segs[k];
  }

  /** The entries of the first `j` segments are a prefix of all entries. */
  lemma {:induction false} SegmentsPrefix(segs: seq<Json>, ids: nat -> string, j: nat)
    requires forall m :: 0 <= m < |segs| ==> segs[m].JObj?
    requires j <= |segs|
    ensures |SegmentsEntries(segs[..j], ids)| <= |SegmentsEntries(segs, ids)|
    ensures SegmentsEntries(segs, ids)[..|SegmentsEntries(segs[..j], ids)|] == SegmentsEntries(segs[..j], ids)
    decreases |segs|
  {
    if j < |segs| {
      var init := segs[..|segs| - 1];
      assert init[..j] == segs[..j];
      SegmentsPrefix(init, ids, j);
      var before := SegmentsEntries(init, ids);
      var n := |SegmentsEntries(segs[..j], ids)|;
      assert SegmentsEntries(segs, ids) == before + SegmentEntries(segs[|segs| - 1].fields, ids(|segs| - 1));
      assert SegmentsEntries(segs, ids)[..n] == before[..n];
    } else {
      assert segs[..j] == segs;
    }
  }

  /** The segment entries number the sum of the segments' widths. */
  lemma {:induction false} SegmentsLength(segs: seq<Json>, ids: nat -> string)
    requires forall m :: 0 <= m < |segs| ==> segs[m].JObj?
    ensures |SegmentsEntries(segs, ids)| == TotalWidth(segs)
    decreases |segs|
  {
    if segs != [] {
      SegmentsLength(segs[..|segs| - 1], ids);
    }
  }

  /** No segment entry is a summary, and every one carries a region id. */
  lemma {:induction false} SegmentsHaveIds(segs: seq<Json>, ids: nat -> string)
    requires forall m :: 0 <= m < |segs| ==> segs[m].JObj?
    ensures forall e <- SegmentsEntries(segs, ids) :: e.id.Some? && e.fromName != "summary"
    decreases |segs|
  {
    if segs != [] {
      SegmentsHaveIds(segs[..|segs| - 1], ids);
    }
  }

  /** The shape of an enhanced prediction: its length is the sum of the
      segments' widths plus one for a summary; the summary, present exactly
      when `summary_uzbek` is truthy, is the last entry and the only one
      without a region id. */
  lemma EnhancedShape(analysis: Json, ids: nat -> string)
    requires FormatEnhanced(analysis, ids).Some?
    ensures var r := FormatEnhanced(analysis, ids).value.result;
      var segments := Get(analysis.fields, "segments");
      && |r| == (if Truthy(segments) then TotalWidth(segments.items) else 0) + (if Has(analysis.fields, "summary_uzbek") then 1 else 0)
      && (Has(analysis.fields, "summary_uzbek") <==> r != [] && r[|r| - 1].fromName == "summary")
      && (Has(analysis.fields, "summary_uzbek") ==> r[|r| - 1] == SummaryEntry(analysis.fields["summary_uzbek"]))
      && (forall k :: 0 <= k < |r| ==> (r[k].id.None? <==> r[k].fromName == "summary"))
  {
    var segments := Get(analysis.fields, "segments");
    if Truthy(segments) {
      SegmentsLength(segments.items, ids);
      SegmentsHaveIds(segments.items, ids);
    }
    var r := FormatEnhanced(analysis, ids).value.result;
    if !Has(analysis.fields, "summary_uzbek") && r != [] {
      assert r[|r| - 1] in SegmentsEntries(segments.items, ids);
    }
  }

  /** A segment carrying only a speaker and a text yields exactly two
      entries: the speaker label and the transcription, on one region. */
  lemma SpeakerAndTextOnly(speaker: Json, text: Json, id: string)
    requires Truthy(text)
    ensures var r := SegmentEntries(map["speaker_id" := speaker, "text" := text], id);
      |r| == 2 && r[0].fromName == "speaker_labels" && r[0].value.item == speaker
      && r[1].fromName == "transcription" && r[1].value.item == text && r[0].id == r[1].id == Some(id)
  {
  }

  // -----------------------------------------------------------------------
  // format_label_studio_predictions
  // -----------------------------------------------------------------------

  const SimpleVersion: string := "gemini-1.5-flash"

  /** One transcription segment: text defaults to "", start and end to 0. */
  function TranscriptionEntry(seg: map<string, Json>): Entry {
    AudioEntry(None, Spanned(GetOr(seg, "start_time", JInt(0)), GetOr(seg, "end_time", JInt(0)), "text", GetOr(seg, "text", JStr(""))),
               "transcription", "textarea")
  }

  function TranscriptionEntries(segs: seq<Json>): (r: seq<Entry>)
    requires forall k :: 0 <= k < |segs| ==> segs[k].JObj?
    ensures |r| == |segs|
    ensures forall k :: 0 <= k < |segs| ==> r[k] == TranscriptionEntry(segs[k].fields)
  {
    if segs == [] then [] else TranscriptionEntries(segs[..|segs| - 1]) + [TranscriptionEntry(segs[|segs| - 1].fields)]
  }

  /** The whole-audio choice entry for one field. */
  function ChoiceEntry(fromName: string, choice: Json): Entry {
    AudioEntry(None, Plain("choices", choice), fromName, "choices")
  }

  /** A speaker's gender, then emotion, each when present. */
  function SpeakerEntries(sp: map<string, Json>): (r: seq<Entry>)
    ensures |r| == (if Has(sp, "gender") then 1 else 0) + (if Has(sp, "emotion") then 1 else 0)
  {
    (if Has(sp, "gender") then [ChoiceEntry("gender", sp["gender"])] else [])
    + (if Has(sp, "emotion") then [ChoiceEntry("emotion", sp["emotion"])] else [])
  }

  /** A speaker's gender entry comes first and its emotion entry last; each
      is there exactly when its field is truthy, and carries the field's
      value. */
  lemma SpeakerEntriesOrdered(sp: map<string, Json>)
    ensures var r := SpeakerEntries(sp);
      && (Has(sp, "gender") ==> "gender" in sp && r[0] == ChoiceEntry("gender", sp["gender"]))
      && (Has(sp, "emotion") ==> "emotion" in sp && r[|r| - 1] == ChoiceEntry("emotion", sp["emotion"]))
      && ((exists e <- r :: e.fromName == "gender") <==> Has(sp, "gender"))
      && ((exists e <- r :: e.fromName == "emotion") <==> Has(sp, "emotion"))
  {
  }

  function SpeakersEntries(speakers: seq<Json>): seq<Entry>
    requires forall k :: 0 <= k < |speakers| ==> speakers[k].JObj?
  {
    if speakers == [] then [] else SpeakersEntries(speakers[..|speakers| - 1]) + SpeakerEntries(speakers[|speakers| - 1].fields)
  }

  /** The entries of the first `k + 1` speakers are those of the first `k`
      followed by speaker `k`'s. */
  lemma SpeakersSnoc(speakers: seq<Json>, k: nat)
    requires forall m :: 0 <= m < |speakers| ==> speakers[m].JObj?
    requires k < |speakers|
    ensures SpeakersEntries(speakers[..k + 1]) == SpeakersEntries(speakers[..k]) + SpeakerEntries(speakers[k].fields)
  {
    var next := speakers[..k + 1];
    assert next[..k] == speakers[..k] && next[k] == speakers[k];
  }

  /** The entries of the first `j` speakers are a prefix of all entries. */
  lemma {:induction false} SpeakersPrefix(speakers: seq<Json>, j: nat)
    requires forall m :: 0 <= m < |speakers| ==> speakers[m].JObj?
    requires j <= |speakers|
    ensures |SpeakersEntries(speakers[..j])| <= |SpeakersEntries(speakers)|
    ensures SpeakersEntries(speakers)[..|SpeakersEntries(speakers[..j])|] == SpeakersEntries(speakers[..j])
    decreases |speakers|
  {
    if j < |speakers| {
      var init := speakers[..|speakers| - 1];
      assert init[..j] == speakers[..j];
      SpeakersPrefix(init, j);
      var before := SpeakersEntries(init);
      var n := |SpeakersEntries(speakers[..j])|;
      assert SpeakersEntries(speakers) == before + SpeakerEntries(speakers[|speakers| - 1].fields);
      assert SpeakersEntries(speakers)[..n] == before[..n];
    } else {
      assert speakers[..j] == speakers;
    }
  }

  /** The speaker entries come in blocks, one per speaker and in speaker
      order: the block of speaker `k` starts after the entries of the
      speakers before it and is exactly that speaker's gender and emotion. */
  lemma SpeakerBlocks(speakers: seq<Json>, k: nat)
    requires forall m :: 0 <= m < |speakers| ==> speakers[m].JObj?
    requires k < |speakers|
    ensures var before := |SpeakersEntries(speakers[..k])|;
      && before + |SpeakerEntries(speakers[k].fields)| <= |SpeakersEntries(speakers)|
      && SpeakersEntries(speakers)[before..before + |SpeakerEntries(speakers[k].fields)|] == SpeakerEntries(speakers[k].fields)
  {
    SpeakersPrefix(speakers, k + 1);
    SpeakersSnoc(speakers, k);
    BlockAfter(SpeakersEntries(speakers), SpeakersEntries(speakers[..k]), SpeakerEntries(speakers[k].fields));
  }

  /** Number of gender and emotion entries of a list of speakers. */
  function SpeakerCount(speakers: seq<Json>): nat
    requires forall k :: 0 <= k < |speakers| ==> speakers[k].JObj?
  {
    if speakers == [] then 0
    else
      var sp := speakers[|speakers| - 1].fields;
      SpeakerCount(speakers[..|speakers| - 1]) + (if Has(sp, "gender") then 1 else 0) + (if Has(sp, "emotion") then 1 else 0)
  }

  /** The entries of an iterated field, or [] when it is falsy. */
  function ListOrEmpty(v: Json): seq<Json> {
    if Truthy(v) && v.JArr? then v.items else []
  }

  /** `format_label_studio_predictions(analysis, task_id)`. */
  function FormatSimple(analysis: Json): (r: Option<Prediction>)
    ensures r.None? <==>
              || !analysis.JObj?
              || (Has(analysis.fields, "transcription") && !ListOfDicts(Get(analysis.fields, "transcription")))
              || (Has(analysis.fields, "speakers") && !ListOfDicts(Get(analysis.fields, "speakers")))
    ensures r.Some? ==> r.value.score == 0.95 && r.value.modelVersion == SimpleVersion
  {
    if !analysis.JObj? then None
    else
      var a := analysis.fields;
      if Has(a, "transcription") && !ListOfDicts(Get(a, "transcription")) then None
      else if Has(a, "speakers") && !ListOfDicts(Get(a, "speakers")) then None
      else
        var transcription := TranscriptionEntries(ListOrEmpty(Get(a, "transcription")));
        var language := if Has(a, "language") then [ChoiceEntry("language", a["language"])] else [];
        var speakers := SpeakersEntries(ListOrEmpty(Get(a, "speakers")));
        var summary := if Has(a, "summary") then [SummaryEntry(a["summary"])] else [];
        Some(Prediction(transcription + language + speakers + summary, 0.95, SimpleVersion))
  }

  /** One pass of the speaker loop: the appends for one speaker. */
  method AppendSpeaker(predictions: seq<Entry>, speaker: map<string, Json>) returns (p: seq<Entry>)
    ensures p == predictions + SpeakerEntries(speaker)
  {
    p := predictions;
    if Has(speaker, "gender") {
      p := p + [ChoiceEntry("gender", speaker["gender"])];
    }
    if Has(speaker, "emotion") {
      p := p + [ChoiceEntry("emotion", speaker["emotion"])];
    }
  }

  /** The transcription loop: one entry per segment, or `None` when a
      segment is not a dict. */
  method TranscriptionLoop(predictions: seq<Entry>, segments: seq<Json>) returns (r: Option<seq<Entry>>)
    ensures r == if ListOfDicts(JArr(segments)) then Some(predictions + TranscriptionEntries(segments)) else None
  {
    var p := predictions;
    for i := 0 to |segments|
      invariant forall k :: 0 <= k < i ==> segments[k].JObj?
      invariant p == predictions + TranscriptionEntries(segments[..i])
    {
      if !segments[i].JObj? {
        return None;
      }
      var segment := segments[i].fields;
      p := p + [AudioEntry(None,
        Spanned(GetOr(segment, "start_time", JInt(0)), GetOr(segment, "end_time", JInt(0)), "text", GetOr(segment, "text", JStr(""))),
        "transcription", "textarea")];
      assert segments[..i + 1][..i] == segments[..i];
    }
    assert segments[..|segments|] == segments;
    return Some(p);
  }

  /** The speaker loop: each speaker's gender and emotion entries, or `None`
      when a speaker is not a dict. */
  method SpeakerLoop(predictions: seq<Entry>, speakers: seq<Json>) returns (r: Option<seq<Entry>>)
    ensures r == if ListOfDicts(JArr(speakers)) then Some(predictions + SpeakersEntries(speakers)) else None
  {
    var p := predictions;
    for i := 0 to |speakers|
      invariant forall k :: 0 <= k < i ==> speakers[k].JObj?
      invariant p == predictions + SpeakersEntries(speakers[..i])
    {
      if !speakers[i].JObj? {
        return None;
      }
      p := AppendSpeaker(p, speakers[i].fields);
      assert speakers[..i + 1][..i] == speakers[..i];
    }
    assert speakers[..|speakers|] == speakers;
    return Some(p);
  }

  /** `format_label_studio_predictions` as the source runs it. */
  method FormatLabelStudioPredictions(analysis: Json) returns (r: Option<Prediction>)
    ensures r == FormatSimple(analysis)
  {
    if !analysis.JObj? {
      return None;
    }
    var a := analysis.fields;
    var predictions: seq<Entry> := [];
    var transcription := Get(a, "transcription");
    if Truthy(transcription) {
      if !transcription.JArr? {
        return None;
      }
      var next := TranscriptionLoop(predictions, transcription.items);
      if next.None? {
        return None;
      }
      predictions := next.value;
    }
    if Has(a, "language") {
      predictions := predictions + [ChoiceEntry("language", a["language"])];
    }
    var speakers := Get(a, "speakers");
    if Truthy(speakers) {
      if !speakers.JArr? {
        return None;
      }
      var next := SpeakerLoop(predictions, speakers.items);
      if next.None? {
        return None;
      }
      predictions := next.value;
    }
    assert !(Has(a, "transcription") && !ListOfDicts(Get(a, "transcription")));
    assert !(Has(a, "speakers") && !ListOfDicts(Get(a, "speakers")));
    assert predictions == TranscriptionEntries(ListOrEmpty(transcription))
                          + (if Has(a, "language") then [ChoiceEntry("language", a["language"])] else [])
                          + SpeakersEntries(ListOrEmpty(speakers));
    if Has(a, "summary") {
      predictions := predictions + [SummaryEntry(a["summary"])];
    }
    assert predictions == TranscriptionEntries(ListOrEmpty(Get(a, "transcription")))
                          + (if Has(a, "language") then [ChoiceEntry("language", a["language"])] else [])
                          + SpeakersEntries(ListOrEmpty(Get(a, "speakers")))
                          + (if Has(a, "summary") then [SummaryEntry(a["summary"])] else []);
    return Some(Prediction(predictions, 0.95, SimpleVersion));
  }

  /** The speaker entries number the speakers' truthy genders and emotions,
      and are only gender and emotion choices. */
  lemma {:induction false} SpeakersShape(speakers: seq<Json>)
    requires forall m :: 0 <= m < |speakers| ==> speakers[m].JObj?
    ensures |SpeakersEntries(speakers)| == SpeakerCount(speakers)
    ensures forall e <- SpeakersEntries(speakers) :: e.id.None? && e.value == Plain("choices", e.value.item)
              && (e.fromName == "gender" || e.fromName == "emotion")
    decreases |speakers|
  {
    if speakers != [] {
      SpeakersShape(speakers[..|speakers| - 1]);
    }
  }

  /** The shape of a simple prediction: one transcription entry per
      segment, first and in order; then at most one whole-audio language
      entry; then the speakers' entries; the summary last, exactly when
      `summary` is truthy. No entry carries a region id. */
  lemma SimpleShape(analysis: Json)
    requires FormatSimple(analysis).Some?
    ensures var r := FormatSimple(analysis).value.result;
      var a := analysis.fields;
      var segs := ListOrEmpty(Get(a, "transcription"));
      && |r| == |segs| + (if Has(a, "language") then 1 else 0) + SpeakerCount(ListOrEmpty(Get(a, "speakers")))
                + (if Has(a, "summary") then 1 else 0)
      && (forall e <- r :: e.id.None?)
      && (forall k :: 0 <= k < |segs| ==>
            r[k].fromName == "transcription" && r[k].value == Spanned(GetOr(segs[k].fields, "start_time", JInt(0)), GetOr(segs[k].fields, "end_time", JInt(0)),
                                      "text", GetOr(segs[k].fields, "text", JStr(""))))
      && ((exists e <- r :: e.fromName == "language") <==> Has(a, "language"))
      && (forall e <- r :: e.fromName == "language" ==> e == ChoiceEntry("language", a["language"]))
      && (Has(a, "summary") <==> r != [] && r[|r| - 1].fromName == "summary")
      && (Has(a, "summary") ==> r[|r| - 1] == SummaryEntry(a["summary"]))
  {
    var a := analysis.fields;
    var segs := ListOrEmpty(Get(a, "transcription"));
    var sps := ListOrEmpty(Get(a, "speakers"));
    SpeakersShape(sps);
    var t := TranscriptionEntries(segs);
    var language := if Has(a, "language") then [ChoiceEntry("language", a["language"])] else [];
    var summary := if Has(a, "summary") then [SummaryEntry(a["summary"])] else [];
    assert FormatSimple(analysis).value.result == t + language + SpeakersEntries(sps) + summary;
    SimpleLayout(t, language, SpeakersEntries(sps), summary);
  }

  /** The order of the four parts of a simple prediction decides where the
      language and summary entries can be found. */
  lemma SimpleLayout(t: seq<Entry>, language: seq<Entry>, speakers: seq<Entry>, summary: seq<Entry>)
    requires forall e <- t :: e.fromName == "transcription" && e.id.None?
    requires forall e <- language :: e.fromName == "language" && e.id.None?
    requires forall e <- speakers :: (e.fromName == "gender" || e.fromName == "emotion") && e.id.None?
    requires |summary| <= 1 && forall e <- summary :: e.fromName == "summary" && e.id.None?
    ensures var r := t + language + speakers + summary;
      && (forall e <- r :: e.id.None?)
      && (forall k :: 0 <= k < |t| ==> r[k] == t[k])
      && ((exists e <- r :: e.fromName == "language") <==> language != [])
      && (forall e <- r :: e.fromName == "language" ==> e in language)
      && (summary != [] <==> r != [] && r[|r| - 1].fromName == "summary")
      && (summary != [] ==> r[|r| - 1] == summary[0])
  {
    var r := t + language + speakers + summary;
    if language != [] {
      assert language[0] in r;
    }
    if summary == [] && r != [] {
      assert r[|r| - 1] in t + language + speakers;
    }
  }
}
