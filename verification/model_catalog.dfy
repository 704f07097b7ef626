/** The model catalogue shared by the web client and the Lambda functions: the named
    feature-flag records, the per-model metadata table, the model lists derived from it by
    flag, and the table of prompt-cache fields per model. */
module ModelCatalog {
  import opened Strings

  /** The fields of a `FeatureFlags` record. */
  datatype Flag = Text | Doc | Image | Video | Reasoning | ImageGen | VideoGen
                | Embedding | Reranking | SpeechToSpeech | Light | Legacy

  /** A flags record.  A field that is absent reads as `undefined`. */
  type FeatureFlags = map<Flag, bool>

  /** `flags.f` is truthy: the field is present and true. */
  predicate IsSet(flags: FeatureFlags, f: Flag) {
    f in flags && flags[f]
  }

  /** The text records of `MODEL_FEATURE`. */
  datatype TextFeature = TextOnly | TextDoc | TextDocImage | TextDocImageReasoning | TextDocImageVideo

  /** The records of `MODEL_FEATURE`: the text records, the other model kinds, and the two
      additional flags `LIGHT` and `LEGACY`. */
  datatype Feature = TextRecord(kind: TextFeature) | ImageGenRecord | VideoGenRecord
                   | EmbeddingRecord | RerankingRecord | SpeechToSpeechRecord
                   | LightRecord | LegacyRecord

  function Record(x: Feature): FeatureFlags {
    match x
    case TextRecord(TextOnly) => map[Text := true, Doc := false, Image := false, Video := false]
    case TextRecord(TextDoc) => map[Text := true, Doc := true, Image := false, Video := false]
    case TextRecord(TextDocImage) => map[Text := true, Doc := true, Image := true, Video := false]
    case TextRecord(TextDocImageReasoning) =>
      map[Text := true, Doc := true, Image := true, Video := false, Reasoning := true]
    case TextRecord(TextDocImageVideo) =>
      map[Text := true, Doc := true, Image := true, Video := true]
    case ImageGenRecord => map[ImageGen := true]
    case VideoGenRecord => map[VideoGen := true]
    case EmbeddingRecord => map[Embedding := true]
    case RerankingRecord => map[Reranking := true]
    case SpeechToSpeechRecord => map[SpeechToSpeech := true]
    case LightRecord => map[Light := true]
    case LegacyRecord => map[Legacy := true]
  }

  /** `{ ...a, ...b }`: the keys of `b` override those of `a`. */
  function Spread(a: FeatureFlags, b: FeatureFlags): FeatureFlags {
    a + b
  }

  /** `...(on ? x : {})`: the record `x` when `on`, otherwise nothing. */
  function Also(on: bool, x: Feature): FeatureFlags {
    if on then Record(x) else map[]
  }

  /** Spreading a record that only switches flags on adds its flags to the ones already
      set, and leaves every other flag as it was. */
  lemma SpreadAdditive(a: FeatureFlags, b: FeatureFlags)
    requires forall f :: f in b ==> b[f]
    ensures forall f :: IsSet(Spread(a, b), f) <==> IsSet(a, f) || IsSet(b, f)
  {
  }

  /** One `modelMetadata` entry: its key and its evaluated `flags` record. */
  datatype ModelMetadata = Model(id: string, flags: FeatureFlags)

  /** `modelMetadata[id].flags.f` is truthy. */
  predicate Has(m: ModelMetadata, f: Flag) {
    IsSet(m.flags, f)
  }

  /** A text entry as the table writes it: `MODEL_FEATURE.<base>`, or a spread of the base
      record followed by `LIGHT` and/or `LEGACY`. */
  datatype TextEntry = TextEntry(id: string, base: TextFeature, light: bool, legacy: bool)

  /** An entry of one of the other families: the family's record, possibly followed by
      `LEGACY`. */
  datatype Entry = Entry(id: string, legacy: bool)

  /** The evaluated `flags` of a text entry. */
  function FromText(e: TextEntry): ModelMetadata {
    Model(e.id, Spread(Spread(Record(TextRecord(e.base)), Also(e.light, LightRecord)),
                       Also(e.legacy, LegacyRecord)))
  }

  function FromEntry(base: Feature, e: Entry): ModelMetadata {
    Model(e.id, Spread(Record(base), Also(e.legacy, LegacyRecord)))
  }

  function OfText(rows: seq<TextEntry>): seq<ModelMetadata> {
    seq(|rows|, i requires 0 <= i < |rows| => FromText(rows[i]))
  }

  function OfFamily(base: Feature, rows: seq<Entry>): seq<ModelMetadata> {
    seq(|rows|, i requires 0 <= i < |rows| => FromEntry(base, rows[i]))
  }

  /** A spread entry's flags are the union of its parts' flags. */
  lemma TextEntryFlags(e: TextEntry)
    ensures forall f :: Has(FromText(e), f)
                    <==> || IsSet(Record(TextRecord(e.base)), f)
                         || (e.light && f == Light)
                         || (e.legacy && f == Legacy)
  {
    SpreadAdditive(Record(TextRecord(e.base)), Also(e.light, LightRecord));
    SpreadAdditive(Spread(Record(TextRecord(e.base)), Also(e.light, LightRecord)),
                   Also(e.legacy, LegacyRecord));
  }

  /** Claude 3 Sonnet and its cross-region variants spread `TEXT_DOC_IMAGE`, `LIGHT` and
      `LEGACY`: they have text, doc, image, light and legacy and nothing else. */
  lemma TextDocImageLightLegacy(id: string)
    ensures forall f :: Has(FromText(TextEntry(id, TextDocImage, true, true)), f)
                    <==> f in {Text, Doc, Image, Light, Legacy}
  {
    TextEntryFlags(TextEntry(id, TextDocImage, true, true));
  }

  /** Every text record sets `text` and none sets the flag of another model kind. */
  lemma TextEntryKind(e: TextEntry)
    ensures Has(FromText(e), Text)
    ensures !Has(FromText(e), ImageGen) && !Has(FromText(e), VideoGen)
    ensures !Has(FromText(e), Embedding) && !Has(FromText(e), Reranking)
    ensures !Has(FromText(e), SpeechToSpeech)
  {
    TextEntryFlags(e);
    TextRecordKind(e.base);
  }

  lemma TextRecordKind(k: TextFeature)
    ensures IsSet(Record(TextRecord(k)), Text)
    ensures ImageGen !in Record(TextRecord(k)) && VideoGen !in Record(TextRecord(k))
    ensures Embedding !in Record(TextRecord(k)) && Reranking !in Record(TextRecord(k))
    ensures SpeechToSpeech !in Record(TextRecord(k))
  {
  }

  /** An entry of another family has, but for `legacy`, exactly its family record's
      flags. */
  lemma EntryKind(base: Feature, e: Entry, f: Flag)
    requires f != Legacy
    ensures Has(FromEntry(base, e), f) <==> IsSet(Record(base), f)
  {
    SpreadAdditive(Record(base), Also(e.legacy, LegacyRecord));
  }

  /** `modelMetadata`, family by family in key order: the text models, then image
      generation, video generation, embedding, reranking and speech-to-speech models. */
  datatype Catalogue = Catalogue(text: seq<TextEntry>, imageGen: seq<Entry>,
                                 videoGen: seq<Entry>, embedding: seq<Entry>,
                                 reranking: seq<Entry>, speechToSpeech: seq<Entry>)

  /** The entries of a catalogue, in key order. */
  function Entries(c: Catalogue): seq<ModelMetadata> {
    OfText(c.text) + OfFamily(ImageGenRecord, c.imageGen)
    + OfFamily(VideoGenRecord, c.videoGen) + OfFamily(EmbeddingRecord, c.embedding)
    + OfFamily(RerankingRecord, c.reranking)
    + OfFamily(SpeechToSpeechRecord, c.speechToSpeech)
  }

  /** The keys of a table, in order. */
  function Ids(t: seq<ModelMetadata>): (r: seq<string>)
    ensures |r| == |t| && forall i :: 0 <= i < |t| ==> r[i] == t[i].id
  {
    seq(|t|, i requires 0 <= i < |t| => t[i].id)
  }

  /** `Object.keys(modelMetadata).filter((model) => modelMetadata[model].flags.f)`. */
  function Select(t: seq<ModelMetadata>, f: Flag): (r: seq<string>)
    ensures |r| <= |t|
    decreases |t|
  {
    if t == [] then []
    else (if Has(t[0], f) then [t[0].id] else []) + Select(t[1..], f)
  }

  /** A key is selected iff some entry with that key has the flag. */
  lemma {:induction false} SelectMembership(t: seq<ModelMetadata>, f: Flag, id: string)
    ensures id in Select(t, f) <==> exists i :: 0 <= i < |t| && t[i].id == id && Has(t[i], f)
  {
    if t != [] {
      SelectMembership(t[1..], f, id);
      if exists i :: 0 <= i < |t[1..]| && t[1..][i].id == id && Has(t[1..][i], f) {
        var i :| 0 <= i < |t[1..]| && t[1..][i].id == id && Has(t[1..][i], f);
        assert t[i + 1] == t[1..][i];
      }
      if exists i :: 0 <= i < |t| && t[i].id == id && Has(t[i], f) {
        var i :| 0 <= i < |t| && t[i].id == id && Has(t[i], f);
        if i > 0 {
          assert t[1..][i - 1] == t[i];
        }
      }
    }
  }

  /** Filtering keeps key order: it distributes over concatenation. */
  lemma {:induction false} SelectAppend(a: seq<ModelMetadata>, b: seq<ModelMetadata>, f: Flag)
    ensures Select(a + b, f) == Select(a, f) + Select(b, f)
  {
    if a == [] {
      assert a + b == b;
    } else {
      assert (a + b)[1..] == a[1..] + b;
      SelectAppend(a[1..], b, f);
      assert Select(a + b, f)
          == (if Has(a[0], f) then [a[0].id] else []) + Select(a[1..] + b, f);
    }
  }

  /** A table whose every entry has the flag is selected whole. */
  lemma {:induction false} SelectAll(t: seq<ModelMetadata>, f: Flag)
    requires forall i :: 0 <= i < |t| ==> Has(t[i], f)
    ensures Select(t, f) == Ids(t)
  {
    if t != [] {
      SelectAll(t[1..], f);
      assert Ids(t) == [t[0].id] + Ids(t[1..]);
    }
  }

  /** A table none of whose entries has the flag contributes nothing. */
  lemma {:induction false} SelectNone(t: seq<ModelMetadata>, f: Flag)
    requires forall i :: 0 <= i < |t| ==> !Has(t[i], f)
    ensures Select(t, f) == []
  {
    if t != [] {
      SelectNone(t[1..], f);
    }
  }

  /** The text family is selected whole by `text` and not at all by another kind's flag. */
  lemma SelectText(rows: seq<TextEntry>, f: Flag)
    requires IsKind(f)
    ensures Select(OfText(rows), f) == if f == Text then Ids(OfText(rows)) else []
  {
    var t := OfText(rows);
    forall i | 0 <= i < |t|
      ensures Has(t[i], f) <==> f == Text
    {
      TextEntryKind(rows[i]);
    }
    if f == Text {
      SelectAll(t, f);
    } else {
      SelectNone(t, f);
    }
  }

  /** Another family is selected whole by its own flag and not at all by any other. */
  lemma SelectFamily(base: Feature, rows: seq<Entry>, f: Flag)
    requires f != Legacy
    ensures Select(OfFamily(base, rows), f)
         == if IsSet(Record(base), f) then Ids(OfFamily(base, rows)) else []
  {
    var t := OfFamily(base, rows);
    forall i | 0 <= i < |t|
      ensures Has(t[i], f) <==> IsSet(Record(base), f)
    {
      EntryKind(base, rows[i], f);
    }
    if IsSet(Record(base), f) {
      SelectAll(t, f);
    } else {
      SelectNone(t, f);
    }
  }

  /** The filter over a catalogue is the filter over each family in turn. */
  lemma SelectEntries(c: Catalogue, f: Flag)
    ensures Select(Entries(c), f)
         == Select(OfText(c.text), f) + Select(OfFamily(ImageGenRecord, c.imageGen), f)
          + Select(OfFamily(VideoGenRecord, c.videoGen), f)
          + Select(OfFamily(EmbeddingRecord, c.embedding), f)
          + Select(OfFamily(RerankingRecord, c.reranking), f)
          + Select(OfFamily(SpeechToSpeechRecord, c.speechToSpeech), f)
  {
    var s1 := OfText(c.text) + OfFamily(ImageGenRecord, c.imageGen);
    var s2 := s1 + OfFamily(VideoGenRecord, c.videoGen);
    var s3 := s2 + OfFamily(EmbeddingRecord, c.embedding);
    var s4 := s3 + OfFamily(RerankingRecord, c.reranking);
    SelectAppend(OfText(c.text), OfFamily(ImageGenRecord, c.imageGen), f);
    SelectAppend(s1, OfFamily(VideoGenRecord, c.videoGen), f);
    SelectAppend(s2, OfFamily(EmbeddingRecord, c.embedding), f);
    SelectAppend(s3, OfFamily(RerankingRecord, c.reranking), f);
    SelectAppend(s4, OfFamily(SpeechToSpeechRecord, c.speechToSpeech), f);
  }

  /** The model kinds that have a `BEDROCK_*_MODELS` list. */
  predicate IsKind(f: Flag) {
    f in {Text, ImageGen, VideoGen, Embedding, Reranking, SpeechToSpeech}
  }

  /** The keys of the family that a kind flag names. */
  function FamilyIds(c: Catalogue, f: Flag): seq<string> {
    match f
    case Text => Ids(OfText(c.text))
    case ImageGen => Ids(OfFamily(ImageGenRecord, c.imageGen))
    case VideoGen => Ids(OfFamily(VideoGenRecord, c.videoGen))
    case Embedding => Ids(OfFamily(EmbeddingRecord, c.embedding))
    case Reranking => Ids(OfFamily(RerankingRecord, c.reranking))
    case SpeechToSpeech => Ids(OfFamily(SpeechToSpeechRecord, c.speechToSpeech))
    case _ => []
  }

  /** Under a kind filter the image and video generation families contribute their keys
      exactly when the flag names them. */
  lemma GenerationUnderFilter(c: Catalogue, f: Flag)
    requires IsKind(f)
    ensures Select(OfFamily(ImageGenRecord, c.imageGen), f) == if f == ImageGen then FamilyIds(c, f) else []
    ensures Select(OfFamily(VideoGenRecord, c.videoGen), f) == if f == VideoGen then FamilyIds(c, f) else []
  {
    SelectFamily(ImageGenRecord, c.imageGen, f);
    SelectFamily(VideoGenRecord, c.videoGen, f);
  }

  /** Likewise for the embedding, reranking and speech-to-speech families. */
  lemma ServiceUnderFilter(c: Catalogue, f: Flag)
    requires IsKind(f)
    ensures Select(OfFamily(EmbeddingRecord, c.embedding), f) == if f == Embedding then FamilyIds(c, f) else []
    ensures Select(OfFamily(RerankingRecord, c.reranking), f) == if f == Reranking then FamilyIds(c, f) else []
    ensures Select(OfFamily(SpeechToSpeechRecord, c.speechToSpeech), f) == if f == SpeechToSpeech then FamilyIds(c, f) else []
  {
    SelectFamily(EmbeddingRecord, c.embedding, f);
    SelectFamily(RerankingRecord, c.reranking, f);
    SelectFamily(SpeechToSpeechRecord, c.speechToSpeech, f);
  }

  lemma OnlyOneFamily(ids: seq<string>, f: Flag)
    requires IsKind(f)
    ensures (if f == Text then ids else []) + (if f == ImageGen then ids else [])
          + (if f == VideoGen then ids else []) + (if f == Embedding then ids else [])
          + (if f == Reranking then ids else []) + (if f == SpeechToSpeech then ids else [])
         == ids
  {
  }

  /** Each `BEDROCK_*_MODELS` list of a catalogue is exactly the keys of the family its
      flag names, in key order. */
  lemma FilterIsFamily(c: Catalogue, f: Flag)
    requires IsKind(f)
    ensures Select(Entries(c), f) == FamilyIds(c, f)
  {
    var text := Select(OfText(c.text), f);
    var image := Select(OfFamily(ImageGenRecord, c.imageGen), f);
    var video := Select(OfFamily(VideoGenRecord, c.videoGen), f);
    var embedding := Select(OfFamily(EmbeddingRecord, c.embedding), f);
    var reranking := Select(OfFamily(RerankingRecord, c.reranking), f);
    var speech := Select(OfFamily(SpeechToSpeechRecord, c.speechToSpeech), f);
    calc {
      Select(Entries(c), f);
    == { SelectEntries(c, f); }
      text + image + video + embedding + reranking + speech;
    == { SelectText(c.text, f);
         GenerationUnderFilter(c, f);
         ServiceUnderFilter(c, f); }
      (if f == Text then FamilyIds(c, f) else [])
      + (if f == ImageGen then FamilyIds(c, f) else [])
      + (if f == VideoGen then FamilyIds(c, f) else [])
      + (if f == Embedding then FamilyIds(c, f) else [])
      + (if f == Reranking then FamilyIds(c, f) else [])
      + (if f == SpeechToSpeech then FamilyIds(c, f) else []);
    == { OnlyOneFamily(FamilyIds(c, f), f); }
      FamilyIds(c, f);
    }
  }

  /** No entry has more than one of `text`, `image_gen` and `video_gen`. */
  predicate OneKind(m: ModelMetadata) {
    && !(Has(m, Text) && Has(m, ImageGen))
    && !(Has(m, Text) && Has(m, VideoGen))
    && !(Has(m, ImageGen) && Has(m, VideoGen))
  }

  lemma OneKindAppend(a: seq<ModelMetadata>, b: seq<ModelMetadata>)
    requires forall i :: 0 <= i < |a| ==> OneKind(a[i])
    requires forall i :: 0 <= i < |b| ==> OneKind(b[i])
    ensures forall i :: 0 <= i < |a + b| ==> OneKind((a + b)[i])
  {
    forall i | 0 <= i < |a + b|
      ensures OneKind((a + b)[i])
    {
      if i >= |a| {
        assert (a + b)[i] == b[i - |a|];
      }
    }
  }

  lemma FamilyOneKind(base: Feature, rows: seq<Entry>)
    ensures forall i :: 0 <= i < |rows| ==> OneKind(OfFamily(base, rows)[i])
  {
    forall i | 0 <= i < |rows|
      ensures OneKind(OfFamily(base, rows)[i])
    {
      EntryKind(base, rows[i], Text);
      EntryKind(base, rows[i], ImageGen);
      EntryKind(base, rows[i], VideoGen);
    }
  }

  /** No feature record sets more than one of `text`, `image_gen` and `video_gen`, so no
      entry of any catalogue is in two of the text, image and video lists. */
  lemma KindsAreExclusive(c: Catalogue)
    ensures forall i :: 0 <= i < |Entries(c)| ==> OneKind(Entries(c)[i])
  {
    var text := OfText(c.text);
    forall i | 0 <= i < |text|
      ensures OneKind(text[i])
    {
      TextEntryKind(c.text[i]);
    }
    FamilyOneKind(ImageGenRecord, c.imageGen);
    FamilyOneKind(VideoGenRecord, c.videoGen);
    FamilyOneKind(EmbeddingRecord, c.embedding);
    FamilyOneKind(RerankingRecord, c.reranking);
    FamilyOneKind(SpeechToSpeechRecord, c.speechToSpeech);
    var s1 := text + OfFamily(ImageGenRecord, c.imageGen);
    var s2 := s1 + OfFamily(VideoGenRecord, c.videoGen);
    var s3 := s2 + OfFamily(EmbeddingRecord, c.embedding);
    var s4 := s3 + OfFamily(RerankingRecord, c.reranking);
    OneKindAppend(text, OfFamily(ImageGenRecord, c.imageGen));
    OneKindAppend(s1, OfFamily(VideoGenRecord, c.videoGen));
    OneKindAppend(s2, OfFamily(EmbeddingRecord, c.embedding));
    OneKindAppend(s3, OfFamily(RerankingRecord, c.reranking));
    OneKindAppend(s4, OfFamily(SpeechToSpeechRecord, c.speechToSpeech));
  }

  /** The text models, by vendor as the table lists them. */
  const TextRows: seq<TextEntry> := [
    // Anthropic
    TextEntry("anthropic.claude-3-5-sonnet-20241022-v2:0", TextDocImage, false, false),
    TextEntry("anthropic.claude-3-5-haiku-20241022-v1:0", TextDocImage, false, false),
    TextEntry("anthropic.claude-3-5-sonnet-20240620-v1:0", TextDocImage, false, false),
    TextEntry("anthropic.claude-3-opus-20240229-v1:0", TextDocImage, false, false),
    TextEntry("anthropic.claude-3-sonnet-20240229-v1:0", TextDocImage, true, true),
    TextEntry("anthropic.claude-3-haiku-20240307-v1:0", TextDocImage, true, false),
    TextEntry("us.anthropic.claude-opus-4-20250514-v1:0", TextDocImageReasoning, false, false),
    TextEntry("us.anthropic.claude-sonnet-4-20250514-v1:0", TextDocImageReasoning, false, false),
    TextEntry("us.anthropic.claude-3-7-sonnet-20250219-v1:0", TextDocImageReasoning, false, false),
    TextEntry("us.anthropic.claude-3-5-sonnet-20241022-v2:0", TextDocImage, false, false),
    TextEntry("us.anthropic.claude-3-5-haiku-20241022-v1:0", TextDocImage, false, false),
    TextEntry("us.anthropic.claude-3-5-sonnet-20240620-v1:0", TextDocImage, false, false),
    TextEntry("us.anthropic.claude-3-opus-20240229-v1:0", TextDocImage, false, false),
    TextEntry("us.anthropic.claude-3-sonnet-20240229-v1:0", TextDocImage, true, true),
    TextEntry("us.anthropic.claude-3-haiku-20240307-v1:0", TextDocImage, true, false),
    TextEntry("eu.anthropic.claude-sonnet-4-20250514-v1:0", TextDocImageReasoning, false, false),
    TextEntry("eu.anthropic.claude-3-7-sonnet-20250219-v1:0", TextDocImageReasoning, false, false),
    TextEntry("eu.anthropic.claude-3-5-sonnet-20240620-v1:0", TextDocImage, false, false),
    TextEntry("eu.anthropic.claude-3-sonnet-20240229-v1:0", TextDocImage, true, true),
    TextEntry("eu.anthropic.claude-3-haiku-20240307-v1:0", TextDocImage, true, false),
    TextEntry("apac.anthropic.claude-sonnet-4-20250514-v1:0", TextDocImageReasoning, false, false),
    TextEntry("apac.anthropic.claude-3-7-sonnet-20250219-v1:0", TextDocImageReasoning, false, false),
    TextEntry("apac.anthropic.claude-3-5-sonnet-20241022-v2:0", TextDocImage, false, false),
    TextEntry("apac.anthropic.claude-3-5-sonnet-20240620-v1:0", TextDocImage, false, false),
    TextEntry("apac.anthropic.claude-3-sonnet-20240229-v1:0", TextDocImage, true, true),
    TextEntry("apac.anthropic.claude-3-haiku-20240307-v1:0", TextDocImage, true, false),
    TextEntry("anthropic.claude-v2:1", TextDoc, false, true),
    TextEntry("anthropic.claude-v2", TextDoc, false, true),
    TextEntry("anthropic.claude-instant-v1", TextDoc, false, true),
    // Amazon
    TextEntry("amazon.titan-text-express-v1", TextDoc, false, false),
    TextEntry("amazon.titan-text-premier-v1:0", TextOnly, false, false),
    TextEntry("amazon.nova-pro-v1:0", TextDocImageVideo, false, false),
    TextEntry("amazon.nova-lite-v1:0", TextDocImageVideo, true, false),
    TextEntry("amazon.nova-micro-v1:0", TextOnly, true, false),
    TextEntry("us.amazon.nova-premier-v1:0", TextDocImage, false, false),
    TextEntry("us.amazon.nova-pro-v1:0", TextDocImage, false, false),
    TextEntry("us.amazon.nova-lite-v1:0", TextDocImage, true, false),
    TextEntry("us.amazon.nova-micro-v1:0", TextOnly, true, false),
    TextEntry("eu.amazon.nova-pro-v1:0", TextDocImage, false, false),
    TextEntry("eu.amazon.nova-lite-v1:0", TextDocImage, true, false),
    TextEntry("eu.amazon.nova-micro-v1:0", TextOnly, true, false),
    TextEntry("apac.amazon.nova-pro-v1:0", TextDocImage, false, false),
    TextEntry("apac.amazon.nova-lite-v1:0", TextDocImage, true, false),
    TextEntry("apac.amazon.nova-micro-v1:0", TextOnly, true, false),
    // Meta
    TextEntry("meta.llama3-8b-instruct-v1:0", TextDoc, false, false),
    TextEntry("meta.llama3-70b-instruct-v1:0", TextDoc, false, false),
    TextEntry("meta.llama3-1-8b-instruct-v1:0", TextDoc, false, false),
    TextEntry("meta.llama3-1-70b-instruct-v1:0", TextDoc, false, false),
    TextEntry("meta.llama3-1-405b-instruct-v1:0", TextDoc, false, false),
    TextEntry("us.meta.llama3-2-1b-instruct-v1:0", TextDoc, false, false),
    TextEntry("us.meta.llama3-2-3b-instruct-v1:0", TextDoc, false, false),
    TextEntry("us.meta.llama3-2-11b-instruct-v1:0", TextDocImage, false, false),
    TextEntry("us.meta.llama3-2-90b-instruct-v1:0", TextDocImage, false, false),
    TextEntry("us.meta.llama3-3-70b-instruct-v1:0", TextDoc, false, false),
    TextEntry("us.meta.llama4-maverick-17b-instruct-v1:0", TextDocImage, false, false),
    TextEntry("us.meta.llama4-scout-17b-instruct-v1:0", TextDocImage, false, false),
    // Mistral
    TextEntry("mistral.mistral-7b-instruct-v0:2", TextDoc, false, false),
    TextEntry("mistral.mixtral-8x7b-instruct-v0:1", TextDoc, false, false),
    TextEntry("mistral.mistral-small-2402-v1:0", TextOnly, false, false),
    TextEntry("mistral.mistral-large-2402-v1:0", TextDoc, false, false),
    TextEntry("mistral.mistral-large-2407-v1:0", TextDoc, false, false),
    TextEntry("us.mistral.pixtral-large-2502-v1:0", TextDocImage, false, false),
    TextEntry("eu.mistral.pixtral-large-2502-v1:0", TextDocImage, false, false),
    // Cohere
    TextEntry("cohere.command-r-v1:0", TextDoc, false, false),
    TextEntry("cohere.command-r-plus-v1:0", TextDoc, false, false),
    // DeepSeek
    TextEntry("us.deepseek.r1-v1:0", TextDoc, false, false),
    // Writer
    TextEntry("us.writer.palmyra-x4-v1:0", TextDoc, false, false),
    TextEntry("us.writer.palmyra-x5-v1:0", TextDoc, false, false)
  ]

  /** Image generation models (`IMAGE_GEN`). */
  const ImageGenRows: seq<Entry> := [
    Entry("stability.stable-diffusion-xl-v1", true),
    Entry("stability.sd3-large-v1:0", true),
    Entry("stability.stable-image-core-v1:0", true),
    Entry("stability.stable-image-core-v1:1", false),
    Entry("stability.stable-image-ultra-v1:0", true),
    Entry("stability.stable-image-ultra-v1:1", true),
    Entry("stability.sd3-5-large-v1:0", false),
    Entry("amazon.titan-image-generator-v2:0", false),
    Entry("amazon.titan-image-generator-v1", false),
    Entry("amazon.nova-canvas-v1:0", false)
  ]

  /** Video generation models (`VIDEO_GEN`). */
  const VideoGenRows: seq<Entry> := [
    Entry("amazon.nova-reel-v1:0", false),
    Entry("amazon.nova-reel-v1:1", false),
    Entry("luma.ray-v2:0", false)
  ]

  /** Embedding models (`EMBEDDING`). */
  const EmbeddingRows: seq<Entry> := [
    Entry("amazon.titan-embed-text-v1", false),
    Entry("amazon.titan-embed-image-v1", false),
    Entry("amazon.titan-embed-text-v2:0", false),
    Entry("cohere.embed-english-v3", false),
    Entry("cohere.embed-multilingual-v3", false)
  ]

  /** Reranking models (`RERANKING`). */
  const RerankingRows: seq<Entry> := [
    Entry("amazon.rerank-v1:0", false),
    Entry("cohere.rerank-v3-5:0", false)
  ]

  /** Speech-to-speech models (`SPEECH_TO_SPEECH`). */
  const SpeechToSpeechRows: seq<Entry> := [
    Entry("amazon.nova-sonic-v1:0", false)
  ]

  const ModelMetadataTable: Catalogue :=
    Catalogue(TextRows, ImageGenRows, VideoGenRows, EmbeddingRows, RerankingRows,
              SpeechToSpeechRows)

  const BedrockTextModels: seq<string> := Select(Entries(ModelMetadataTable), Text)
  const BedrockImageGenModels: seq<string> := Select(Entries(ModelMetadataTable), ImageGen)
  const BedrockVideoGenModels: seq<string> := Select(Entries(ModelMetadataTable), VideoGen)
  const BedrockEmbeddingModels: seq<string> := Select(Entries(ModelMetadataTable), Embedding)
  const BedrockRerankingModels: seq<string> := Select(Entries(ModelMetadataTable), Reranking)
  const BedrockSpeechToSpeechModels: seq<string> :=
    Select(Entries(ModelMetadataTable), SpeechToSpeech)

  /** Nova Sonic is the only speech-to-speech model. */
  lemma SpeechToSpeechIsNovaSonic()
    ensures BedrockSpeechToSpeechModels == ["amazon.nova-sonic-v1:0"]
  {
    FilterIsFamily(ModelMetadataTable, SpeechToSpeech);
  }

  /** The fields of a request that the prompt cache can cover. */
  datatype PromptCacheField = Messages | System | Tools

  /** `SUPPORTED_CACHE_FIELDS`, keyed by model id without a cross-region prefix. */
  const SupportedCacheFields: map<string, seq<PromptCacheField>> := map[
    "anthropic.claude-opus-4-20250514-v1:0" := [Messages, System, Tools],
    "anthropic.claude-sonnet-4-20250514-v1:0" := [Messages, System, Tools],
    "anthropic.claude-3-7-sonnet-20250219-v1:0" := [Messages, System, Tools],
    "anthropic.claude-3-5-haiku-20241022-v1:0" := [Messages, System, Tools],
    "amazon.nova-pro-v1:0" := [Messages, System],
    "amazon.nova-lite-v1:0" := [Messages, System],
    "amazon.nova-micro-v1:0" := [Messages, System]
  ]

  /** Every model with cache support caches messages and the system prompt; some also
      cache tools. */
  lemma CacheFieldsShape(id: string)
    requires id in SupportedCacheFields
    ensures SupportedCacheFields[id] == [Messages, System, Tools]
         || SupportedCacheFields[id] == [Messages, System]
  {
  }

  /** The four Anthropic models cache messages, system and tools; the three Nova models
      cache messages and system only; no other model is listed. */
  lemma CacheFieldsByModel()
    ensures SupportedCacheFields.Keys == {
      "anthropic.claude-opus-4-20250514-v1:0", "anthropic.claude-sonnet-4-20250514-v1:0",
      "anthropic.claude-3-7-sonnet-20250219-v1:0", "anthropic.claude-3-5-haiku-20241022-v1:0",
      "amazon.nova-pro-v1:0", "amazon.nova-lite-v1:0", "amazon.nova-micro-v1:0"}
    ensures SupportedCacheFields["anthropic.claude-opus-4-20250514-v1:0"] == [Messages, System, Tools]
    ensures SupportedCacheFields["anthropic.claude-sonnet-4-20250514-v1:0"] == [Messages, System, Tools]
    ensures SupportedCacheFields["anthropic.claude-3-7-sonnet-20250219-v1:0"] == [Messages, System, Tools]
    ensures SupportedCacheFields["anthropic.claude-3-5-haiku-20241022-v1:0"] == [Messages, System, Tools]
    ensures SupportedCacheFields["amazon.nova-pro-v1:0"] == [Messages, System]
    ensures SupportedCacheFields["amazon.nova-lite-v1:0"] == [Messages, System]
    ensures SupportedCacheFields["amazon.nova-micro-v1:0"] == [Messages, System]
  {
  }
}
