/**
 * The deterministic parts of `ContentAnalyzer`: the metadata features it
 * fills key by key, the scene-change estimate and duration category of the
 * video features, the insights it derives from the quality scores and the
 * title, and the text quality formula.
 */
module Content {
  import opened Base
  import opened Text

  /** The metadata fields read; an absent title, description or tag list is empty. */
  datatype Metadata = Metadata(title: string, description: string, tags: seq<string>, duration: Option<int>)

  // ---------------------------------------------------------------- metadata features

  /** The title-derived features, present only for a non-empty title. */
  datatype TitleFeatures = TitleFeatures(hasCaps: bool, hasNumbers: bool, wordCount: nat,
                                         exclamationCount: nat, questionCount: nat)

  /** The description-derived features, present only for a non-empty description. */
  datatype DescriptionFeatures = DescriptionFeatures(wordCount: nat, hasLinks: bool, hashtagCount: nat,
                                                     mentionCount: nat)

  /** The tag-derived features, present only for a non-empty tag list. */
  datatype TagFeatures = TagFeatures(avgTagLength: real, hasTrendingTags: bool)

  /**
   * The dictionary `_extract_metadata_features` returns: the four basic
   * keys always, each group of derived keys only when its field is set.
   */
  datatype MetadataFeatures = MetadataFeatures(
    titleLength: nat, descriptionLength: nat, tagCount: nat, duration: int,
    title: Option<TitleFeatures>, description: Option<DescriptionFeatures>, tags: Option<TagFeatures>)

  const TrendingTagWords: seq<string> := ["viral", "trending", "fyp", "foryou"]

  /** `sum(len(x) for x in xs)`. */
  function TotalLength(xs: seq<string>): nat
  {
    if xs == [] then 0 else TotalLength(xs[..|xs| - 1]) + |xs[|xs| - 1]|
  }

  /** `any(tag.lower() in [...] for tag in tags)`. */
  function AnyTrending(tags: seq<string>): (b: bool)
    ensures b <==> exists i | 0 <= i < |tags| :: Lower(tags[i]) in TrendingTagWords
  {
    if tags == [] then false else Lower(tags[0]) in TrendingTagWords || AnyTrending(tags[1..])
  }

  /** The title block of `_extract_metadata_features`. */
  method ExtractTitleFeatures(title: string) returns (r: Option<TitleFeatures>)
    ensures r.Some? <==> title != []
    ensures r.Some? ==>
      && r.value.hasCaps == HasUpper(title)
      && r.value.hasNumbers == HasDigit(title)
      && r.value.wordCount == |Split(title)|
      && r.value.exclamationCount == multiset(title)['!']
      && r.value.questionCount == multiset(title)['?']
  {
    r := None;
    if title != [] {
      CountIsMultiplicity(title, '!');
      CountIsMultiplicity(title, '?');
      r := Some(TitleFeatures(HasUpper(title), HasDigit(title), |Split(title)|,
                              Count(title, '!'), Count(title, '?')));
    }
  }

  /** The description block of `_extract_metadata_features`. */
  method ExtractDescriptionFeatures(description: string) returns (r: Option<DescriptionFeatures>)
    ensures r.Some? <==> description != []
    ensures r.Some? ==>
      && r.value.wordCount == |Split(description)|
      && r.value.hasLinks == Contains(Lower(description), "http")
      && r.value.hashtagCount == multiset(description)['#']
      && r.value.mentionCount == multiset(description)['@']
  {
    r := None;
    if description != [] {
      CountIsMultiplicity(description, '#');
      CountIsMultiplicity(description, '@');
      r := Some(DescriptionFeatures(|Split(description)|, Contains(Lower(description), "http"),
                                    Count(description, '#'), Count(description, '@')));
    }
  }

  /** The tag block of `_extract_metadata_features`. */
  method ExtractTagFeatures(tags: seq<string>) returns (r: Option<TagFeatures>)
    ensures r.Some? <==> tags != []
    ensures r.Some? ==>
      && r.value.avgTagLength == Fraction(TotalLength(tags), |tags|)
      && (r.value.hasTrendingTags <==> exists i | 0 <= i < |tags| :: Lower(tags[i]) in TrendingTagWords)
  {
    r := None;
    if tags != [] {
      r := Some(TagFeatures(Fraction(TotalLength(tags), |tags|), AnyTrending(tags)));
    }
  }

  /** `_extract_metadata_features`: the four basic features, then the three groups. */
  method ExtractMetadataFeatures(m: Metadata) returns (r: MetadataFeatures)
    ensures r.titleLength == |m.title| && r.descriptionLength == |m.description| && r.tagCount == |m.tags|
    ensures r.duration == OrElse(m.duration, 0)
    ensures r.title.Some? <==> m.title != []
    ensures r.description.Some? <==> m.description != []
    ensures r.tags.Some? <==> m.tags != []
    ensures r.title.Some? ==>
      && r.title.value.hasCaps == HasUpper(m.title)
      && r.title.value.hasNumbers == HasDigit(m.title)
      && r.title.value.wordCount == |Split(m.title)|
      && r.title.value.exclamationCount == multiset(m.title)['!']
      && r.title.value.questionCount == multiset(m.title)['?']
    ensures r.description.Some? ==>
      && r.description.value.wordCount == |Split(m.description)|
      && r.description.value.hasLinks == Contains(Lower(m.description), "http")
      && r.description.value.hashtagCount == multiset(m.description)['#']
      && r.description.value.mentionCount == multiset(m.description)['@']
    ensures r.tags.Some? ==>
      && r.tags.value.avgTagLength == Fraction(TotalLength(m.tags), |m.tags|)
      && (r.tags.value.hasTrendingTags <==> exists i | 0 <= i < |m.tags| :: Lower(m.tags[i]) in TrendingTagWords)
  {
    var title := ExtractTitleFeatures(m.title);
    var description := ExtractDescriptionFeatures(m.description);
    var tags := ExtractTagFeatures(m.tags);
    r := MetadataFeatures(|m.title|, |m.description|, |m.tags|, OrElse(m.duration, 0), title, description, tags);
  }

  lemma {:induction false} TotalLengthUniform(tags: seq<string>, n: nat)
    requires forall i | 0 <= i < |tags| :: |tags[i]| == n
    ensures TotalLength(tags) == |tags| * n
  {
    if tags != [] {
      TotalLengthUniform(tags[..|tags| - 1], n);
    }
  }

  /** The average tag length is a mean: when every tag has length `n` it is `n`. */
  lemma AverageOfUniformTags(tags: seq<string>, n: nat)
    requires tags != [] && forall i | 0 <= i < |tags| :: |tags[i]| == n
    ensures Fraction(TotalLength(tags), |tags|) == n as real
  {
    TotalLengthUniform(tags, n);
    FractionOfMultiple(|tags|, n);
  }

  /** A trending tag is recognised whatever its case. */
  lemma TrendingIgnoresCase(tags: seq<string>)
    ensures AnyTrending(tags) == AnyTrending(LowerAll(tags))
  {
    forall i | 0 <= i < |tags| ensures Lower(LowerAll(tags)[i]) == Lower(tags[i]) {
      LowerIdempotent(tags[i]);
    }
  }

  lemma LowerIdempotent(s: string)
    ensures Lower(Lower(s)) == Lower(s)
  {
  }

  // ---------------------------------------------------------------- video features

  /** Python's `int(a / b)` for a positive divisor: the quotient truncated toward zero. */
  function TruncDiv(a: int, b: int): int
    requires b > 0
  {
    if a >= 0 then a / b else -((-a) / b)
  }

  /** `max(1, int(duration / 5))`, the scene-change estimate. */
  function SceneChanges(duration: int): (n: int)
    ensures n >= 1
  {
    MaxInt(1, TruncDiv(duration, 5))
  }

  /**
   * At least one scene; one per five whole seconds from five seconds up,
   * and never fewer for a longer video.
   */
  lemma SceneChangesSteps(d: int, e: int)
    ensures d < 10 ==> SceneChanges(d) == 1
    ensures d >= 5 ==> SceneChanges(d) == d / 5 && 5 * SceneChanges(d) <= d < 5 * SceneChanges(d) + 5
    ensures d <= e ==> SceneChanges(d) <= SceneChanges(e)
  {
  }

  /** The duration the video features read when the metadata has none. */
  function VideoDuration(m: Metadata): int
  {
    OrElse(m.duration, 30)
  }

  datatype DurationCategory = VeryShort | Short | Medium | Long

  function CategoryName(c: DurationCategory): string
  {
    match c
    case VeryShort => "very_short"
    case Short => "short"
    case Medium => "medium"
    case Long => "long"
  }

  /** `duration_category` of `_extract_video_features`. */
  function DurationCategoryOf(duration: int): DurationCategory
  {
    if duration < 5 then VeryShort
    else if duration < 15 then Short
    else if duration < 60 then Medium
    else Long
  }

  function CategoryRank(c: DurationCategory): nat
  {
    match c
    case VeryShort => 0
    case Short => 1
    case Medium => 2
    case Long => 3
  }

  /** The categories cut the line at 5, 15 and 60 seconds and follow the duration's order. */
  lemma DurationCategoryBands(d: int, e: int)
    ensures DurationCategoryOf(d) == VeryShort <==> d < 5
    ensures DurationCategoryOf(d) == Short <==> 5 <= d < 15
    ensures DurationCategoryOf(d) == Medium <==> 15 <= d < 60
    ensures DurationCategoryOf(d) == Long <==> 60 <= d
    ensures d <= e ==> CategoryRank(DurationCategoryOf(d)) <= CategoryRank(DurationCategoryOf(e))
  {
  }

  /** A video without a duration reads as 30 seconds: six scenes, medium length. */
  lemma DefaultVideoDuration(m: Metadata)
    requires m.duration == None
    ensures SceneChanges(VideoDuration(m)) == 6 && DurationCategoryOf(VideoDuration(m)) == Medium
  {
  }

  // ---------------------------------------------------------------- insights

  datatype Category = General | Educational | Entertainment | Review

  const EducationalMarkers: seq<string> := ["tutorial", "how to", "learn"]
  const EntertainmentMarkers: seq<string> := ["funny", "comedy", "laugh"]
  const ReviewMarkers: seq<string> := ["review", "unbox", "product"]

  /** The category test of `_generate_content_insights`, on the lowered metadata title. */
  function DetectCategory(title: string): Category
  {
    if AnyContains(title, EducationalMarkers) then Educational
    else if AnyContains(title, EntertainmentMarkers) then Entertainment
    else if AnyContains(title, ReviewMarkers) then Review
    else General
  }

  /** The first marker list that matches decides; a title matching none is general. */
  lemma CategoryPrecedence(title: string)
    ensures DetectCategory(title) == Educational <==> AnyContains(title, EducationalMarkers)
    ensures DetectCategory(title) == Entertainment <==>
      !AnyContains(title, EducationalMarkers) && AnyContains(title, EntertainmentMarkers)
    ensures DetectCategory(title) == Review <==>
      !AnyContains(title, EducationalMarkers) && !AnyContains(title, EntertainmentMarkers)
      && AnyContains(title, ReviewMarkers)
    ensures DetectCategory(title) == General <==>
      !AnyContains(title, EducationalMarkers) && !AnyContains(title, EntertainmentMarkers)
      && !AnyContains(title, ReviewMarkers)
  {
  }

  datatype Note =
    | HighQualityText | ExcellentVideo
    | ImproveText | EnhanceVideo
    | DescriptiveCaptions | LightingAndAudio

  function NoteText(n: Note): string
  {
    match n
    case HighQualityText => "High-quality text content"
    case ExcellentVideo => "Excellent video production quality"
    case ImproveText => "Improve text quality and clarity"
    case EnhanceVideo => "Enhance video production quality"
    case DescriptiveCaptions => "Add more descriptive captions"
    case LightingAndAudio => "Improve lighting and audio quality"
  }

  datatype Insights = Insights(recommendations: seq<Note>, strengths: seq<Note>, improvementAreas: seq<Note>,
                               category: Category)

  /**
   * `_generate_content_insights`: the two quality scores (0.5 when absent)
   * each add a strength above 0.8, or an improvement area and a
   * recommendation below 0.4; the lowered metadata title picks the category.
   * The target audience is always "broad".
   */
  method GenerateContentInsights(title: string, textScore: Option<real>, videoScore: Option<real>)
      returns (ins: Insights)
    ensures var t, v := OrElse(textScore, 0.5), OrElse(videoScore, 0.5);
      && ins.strengths == When(t > 0.8, HighQualityText) + When(v > 0.8, ExcellentVideo)
      && ins.improvementAreas == When(t < 0.4, ImproveText) + When(v < 0.4, EnhanceVideo)
      && ins.recommendations == When(t < 0.4, DescriptiveCaptions) + When(v < 0.4, LightingAndAudio)
      && ins.category == DetectCategory(Lower(title))
  {
    var recommendations: seq<Note> := [];
    var strengths: seq<Note> := [];
    var improvementAreas: seq<Note> := [];
    var category := General;
    var t := OrElse(textScore, 0.5);
    var v := OrElse(videoScore, 0.5);
    if t > 0.8 {
      strengths := strengths + [HighQualityText];
    } else if t < 0.4 {
      improvementAreas := improvementAreas + [ImproveText];
      recommendations := recommendations + [DescriptiveCaptions];
    }
    if v > 0.8 {
      strengths := strengths + [ExcellentVideo];
    } else if v < 0.4 {
      improvementAreas := improvementAreas + [EnhanceVideo];
      recommendations := recommendations + [LightingAndAudio];
    }
    var lowered := Lower(title);
    if AnyContains(lowered, EducationalMarkers) {
      category := Educational;
    } else if AnyContains(lowered, EntertainmentMarkers) {
      category := Entertainment;
    } else if AnyContains(lowered, ReviewMarkers) {
      category := Review;
    }
    ins := Insights(recommendations, strengths, improvementAreas, category);
  }

  /**
   * Each score contributes one strength above 0.8, one improvement area
   * and one recommendation below 0.4, and nothing in between; missing
   * scores count as 0.5 and contribute nothing.
   */
  lemma InsightCounts(t: real, v: real)
    ensures |When(t > 0.8, HighQualityText) + When(v > 0.8, ExcellentVideo)| == Ind(t > 0.8) + Ind(v > 0.8)
    ensures |When(t < 0.4, ImproveText) + When(v < 0.4, EnhanceVideo)| == Ind(t < 0.4) + Ind(v < 0.4)
    ensures |When(t < 0.4, DescriptiveCaptions) + When(v < 0.4, LightingAndAudio)| == Ind(t < 0.4) + Ind(v < 0.4)
    ensures 0.4 <= t <= 0.8 && 0.4 <= v <= 0.8 ==>
      When(t > 0.8, HighQualityText) + When(v > 0.8, ExcellentVideo) == []
      && When(t < 0.4, ImproveText) + When(v < 0.4, EnhanceVideo) == []
    ensures !(t > 0.8 && t < 0.4)
  {
  }

  // ---------------------------------------------------------------- text quality

  /** The characters `'.,!?;:'` the punctuation ratio counts. */
  predicate IsPunctuation(c: char)
  {
    c == '.' || c == ',' || c == '!' || c == '?' || c == ';' || c == ':'
  }

  function PunctuationCount(s: string): (n: nat)
    ensures n <= |s|
  {
    if s == [] then 0 else PunctuationCount(s[..|s| - 1]) + Ind(IsPunctuation(s[|s| - 1]))
  }

  /** The term inside the clamp of `_analyze_text_content`. */
  function TextQualityRaw(text: string): real
    requires text != []
  {
    var words := Split(text);
    var wordCount := |words|;
    var avgWordLength := Fraction(TotalLength(words), MaxInt(wordCount, 1));
    var punctuationRatio := Fraction(PunctuationCount(text), MaxInt(|text|, 1));
    (wordCount as real / 100.0) * 0.3 + (avgWordLength / 10.0) * 0.2 + (punctuationRatio * 10.0) * 0.1 + 0.4
  }

  /** `text_quality_score` of `_analyze_text_content`, before rounding. */
  function TextQualityScore(text: string): (r: real)
    ensures text == [] ==> r == 0.0
    ensures text != [] ==> 0.4 <= r <= 1.0
  {
    if text == [] then 0.0 else Min(1.0, Max(0.0, TextQualityRaw(text)))
  }

  /** A non-empty text with no words and no punctuation scores exactly the base 0.4. */
  lemma BlankTextScore(text: string)
    requires text != [] && AllSpaces(text)
    ensures TextQualityScore(text) == 0.4
  {
    SplitEmptyIff(text);
    NoPunctuationInSpaces(text);
  }

  lemma {:induction false} NoPunctuationInSpaces(s: string)
    requires AllSpaces(s)
    ensures PunctuationCount(s) == 0
  {
    if s != [] {
      NoPunctuationInSpaces(s[..|s| - 1]);
    }
  }
}
