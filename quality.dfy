/**
 * The quality scorer: five rule-based dimension scores in [0, 1], their
 * weighted overall score and rating, improvement recommendations, and a
 * per-creator history of overall scores with trend statistics.
 */
module Quality {
  import opened Base
  import Config
  import Text

  // ---------------------------------------------------------------- features

  /**
   * The content features the scorer reads.  A key missing from the source's
   * dictionary is represented by the default every reader uses; the two keys
   * whose readers disagree on the default are optional.
   */
  datatype Features = Features(
    titleLength: int, titleHasCaps: bool, titleExclamationCount: int, titleQuestionCount: int,
    titleWordCount: int, videoDuration: Option<real>, brightness: Option<real>,
    contrast: real, colorVariety: real, colorDiversity: real,
    aiEngagementPotential: real, motionScore: real, faceConfidence: real, hashtagCount: int,
    aiEducationalValue: real, descriptionLength: int, descriptionWordCount: int,
    avgWordLength: real, aiContentDepth: real, hasLinks: bool, aiCategory: string,
    aiOriginality: real, sceneChanges: real, textOverlay: bool, emojiCount: int,
    composition: real, aspectRatio: real,
    aiSafety: real, toxicity: real, capitalizationRatio: real, sentiment: real,
    aiProductionQuality: real, sharpness: real, estimatedResolution: string, hasAudio: bool,
    estimatedFps: real, creatorId: string, contentType: string)

  /** The features of an empty dictionary: every reader's default. */
  const EmptyFeatures: Features := Features(
    0, false, 0, 0, 0, None, None, 0.0, 0.0, 0.0,
    0.5, 0.0, 0.0, 0,
    0.3, 0, 0, 0.0, 0.3, false, "",
    0.4, 0.0, false, 0, 0.0, 1.0,
    0.8, 0.0, 0.0, 0.0,
    0.5, 0.0, "", false, 0.0, "unknown", "unknown")

  /** `if features.get(key):` — present and non-zero. */
  predicate Truthy(o: Option<real>) { o.Some? && o.value != 0.0 }

  /** A rule's contribution: `x` when its condition holds. */
  function B(cond: bool, x: real): real
  {
    if cond then x else 0.0
  }

  /** One `if cond: score += x` step of a scorer. */
  method Bump(score: real, cond: bool, x: real) returns (s: real)
    ensures s == score + B(cond, x)
  {
    s := score;
    if cond { s := s + x; }
  }

  // ---------------------------------------------------------------- dimension scores

  /** The duration rule of the engagement score. */
  function EngagementDurationTerm(duration: Option<real>): real
  {
    if !Truthy(duration) then 0.0
    else if 15.0 <= duration.value <= 60.0 then 0.15
    else if duration.value < 5.0 then -0.1
    else if duration.value > 180.0 then -0.1
    else 0.0
  }

  /** The title, duration and visual rules of the engagement score, from its base of 0.5. */
  function EngagementBeforeAi(f: Features): real
  {
    0.5 + EngagementTitleTerms(f) + EngagementDurationTerm(f.videoDuration) + EngagementVisualTerms(f)
  }

  /** The title rules of the engagement score. */
  function EngagementTitleTerms(f: Features): real
  {
    B(10 <= f.titleLength <= 60, 0.1) + B(f.titleHasCaps, 0.05)
    + B(f.titleExclamationCount > 0, 0.05) + B(f.titleQuestionCount > 0, 0.05)
  }

  /** The visual rules of the engagement score. */
  function EngagementVisualTerms(f: Features): real
  {
    B(OrElse(f.brightness, 0.0) > 0.5, 0.05) + B(f.contrast > 0.6, 0.05) + B(f.colorVariety > 0.6, 0.05)
  }

  /** The engagement score before clamping: the first rules averaged with the AI prediction, then motion, face and hashtag rules. */
  function EngagementRaw(f: Features): real
  {
    (EngagementBeforeAi(f) + f.aiEngagementPotential) / 2.0
      + B(f.motionScore > 0.3, 0.1) + B(f.faceConfidence > 0.7, 0.05) + B(2 <= f.hashtagCount <= 10, 0.05)
  }

  /** `_calculate_engagement_score`. */
  method EngagementScore(f: Features) returns (r: real)
    ensures r == Clamp(EngagementRaw(f), 0.0, 1.0)
    ensures 0.0 <= r <= 1.0
  {
    var score := 0.5;
    score := Bump(score, 10 <= f.titleLength <= 60, 0.1);
    score := Bump(score, f.titleHasCaps, 0.05);
    score := Bump(score, f.titleExclamationCount > 0, 0.05);
    score := Bump(score, f.titleQuestionCount > 0, 0.05);
    score := score + EngagementDurationTerm(f.videoDuration);
    score := Bump(score, OrElse(f.brightness, 0.0) > 0.5, 0.05);
    score := Bump(score, f.contrast > 0.6, 0.05);
    score := Bump(score, f.colorVariety > 0.6, 0.05);
    score := (score + f.aiEngagementPotential) / 2.0;
    score := Bump(score, f.motionScore > 0.3, 0.1);
    score := Bump(score, f.faceConfidence > 0.7, 0.05);
    score := Bump(score, 2 <= f.hashtagCount <= 10, 0.05);
    r := Clamp(score, 0.0, 1.0);
  }

  /** A video in the 15–60 s sweet spot scores at least as well for engagement as the same content with any other duration. */
  lemma EngagementSweetSpot(f: Features, d: real, other: Option<real>)
    requires 15.0 <= d <= 60.0
    ensures EngagementRaw(f.(videoDuration := Some(d))) >= EngagementRaw(f.(videoDuration := other))
    ensures Clamp(EngagementRaw(f.(videoDuration := Some(d))), 0.0, 1.0) >= Clamp(EngagementRaw(f.(videoDuration := other)), 0.0, 1.0)
  {
    ClampMonotone(EngagementRaw(f.(videoDuration := other)), EngagementRaw(f.(videoDuration := Some(d))), 0.0, 1.0);
  }

  /** The AI prediction is averaged in: raising it by `delta` raises the unclamped engagement score by `delta / 2`. */
  lemma EngagementAveragesAi(f: Features, delta: real)
    ensures EngagementRaw(f.(aiEngagementPotential := f.aiEngagementPotential + delta)) == EngagementRaw(f) + delta / 2.0
  {
  }

  /** The educational score before clamping. */
  function EducationalRaw(f: Features): real
  {
    var first := (0.3 + f.aiEducationalValue) / 2.0
      + B(f.descriptionLength > 100, 0.15) + B(f.descriptionLength > 300, 0.1)
      + B(f.descriptionWordCount > 50, 0.1) + B(f.avgWordLength > 5.0, 0.05);
    (first + f.aiContentDepth) / 2.0
      + B(f.hasLinks, 0.1) + B(OrElse(f.videoDuration, 0.0) > 60.0, 0.1)
      + B(f.aiCategory in EducationalCategories, 0.2)
  }

  const EducationalCategories: set<string> := {"education", "technology", "science", "tutorial"}

  /** `_calculate_educational_score`. */
  method EducationalScore(f: Features) returns (r: real)
    ensures r == Clamp(EducationalRaw(f), 0.0, 1.0)
    ensures 0.0 <= r <= 1.0
  {
    var score := 0.3;
    score := (score + f.aiEducationalValue) / 2.0;
    score := Bump(score, f.descriptionLength > 100, 0.15);
    score := Bump(score, f.descriptionLength > 300, 0.1);
    score := Bump(score, f.descriptionWordCount > 50, 0.1);
    score := Bump(score, f.avgWordLength > 5.0, 0.05);
    score := (score + f.aiContentDepth) / 2.0;
    score := Bump(score, f.hasLinks, 0.1);
    score := Bump(score, OrElse(f.videoDuration, 0.0) > 60.0, 0.1);
    score := Bump(score, f.aiCategory in EducationalCategories, 0.2);
    r := Clamp(score, 0.0, 1.0);
  }

  /** An educational category adds exactly 0.2 to the unclamped score; the description bonuses count half, since they are averaged with the depth assessment. */
  lemma EducationalCategoryBonus(f: Features, cat: string, other: string)
    requires cat in EducationalCategories && other !in EducationalCategories
    ensures EducationalRaw(f.(aiCategory := cat)) == EducationalRaw(f.(aiCategory := other)) + 0.2
    ensures EducationalRaw(f.(descriptionLength := 301, aiCategory := other))
         == EducationalRaw(f.(descriptionLength := 0, aiCategory := other)) + 0.125
  {
  }

  /** The scene-change rule of the creativity score; an absent duration is read as 30 s. */
  predicate VariedScenes(f: Features)
  {
    var duration := OrElse(f.videoDuration, 30.0);
    duration > 0.0 && f.sceneChanges / duration > 0.1
  }

  /** The creativity score before clamping. */
  function CreativityRaw(f: Features): real
  {
    (0.4 + f.aiOriginality) / 2.0 + CreativityColorTerms(f) + B(VariedScenes(f), 0.1) + CreativityLateTerms(f)
  }

  /** The colour rules of the creativity score. */
  function CreativityColorTerms(f: Features): real
  {
    B(f.colorVariety > 0.7, 0.1) + B(f.colorDiversity > 0.6, 0.05)
  }

  /** The overlay, title, emoji, composition and aspect-ratio rules of the creativity score. */
  function CreativityLateTerms(f: Features): real
  {
    B(f.textOverlay, 0.05) + B(f.titleWordCount > 8, 0.05) + B(1 <= f.emojiCount <= 5, 0.05)
    + B(f.composition > 0.7, 0.1) + B(!(0.9 <= f.aspectRatio <= 1.1), 0.05)
  }

  /** `_calculate_creativity_score`. */
  method CreativityScore(f: Features) returns (r: real)
    ensures r == Clamp(CreativityRaw(f), 0.0, 1.0)
    ensures 0.0 <= r <= 1.0
  {
    var score := 0.4;
    score := (score + f.aiOriginality) / 2.0;
    score := Bump(score, f.colorVariety > 0.7, 0.1);
    score := Bump(score, f.colorDiversity > 0.6, 0.05);
    score := Bump(score, VariedScenes(f), 0.1);
    score := Bump(score, f.textOverlay, 0.05);
    score := Bump(score, f.titleWordCount > 8, 0.05);
    score := Bump(score, 1 <= f.emojiCount <= 5, 0.05);
    score := Bump(score, f.composition > 0.7, 0.1);
    score := Bump(score, !(0.9 <= f.aspectRatio <= 1.1), 0.05);
    r := Clamp(score, 0.0, 1.0);
  }

  /** Without a duration the scene rule reads 30 s: more than three scene changes earn the bonus. */
  lemma CreativityDefaultDuration(f: Features)
    requires f.videoDuration.None?
    ensures VariedScenes(f) <==> f.sceneChanges > 3.0
  {
  }

  /** The sentiment rule of the safety score. */
  function SentimentTerm(sentiment: real): real
  {
    if sentiment < -0.3 then -0.1 else if sentiment > 0.3 then 0.05 else 0.0
  }

  /** The safety score before clamping. */
  function SafetyRaw(f: Features): real
  {
    var brightness := OrElse(f.brightness, 0.5);
    (0.8 + f.aiSafety) / 2.0 - f.toxicity * 0.5
      - B(f.capitalizationRatio > 0.3, 0.1) - B(f.titleExclamationCount > 3, 0.05)
      + SentimentTerm(f.sentiment) - B(brightness < 0.2 || brightness > 0.9, 0.05)
  }

  /** `_calculate_safety_score`. */
  method SafetyScore(f: Features) returns (r: real)
    ensures r == Clamp(SafetyRaw(f), 0.0, 1.0)
    ensures 0.0 <= r <= 1.0
  {
    var score := 0.8;
    score := (score + f.aiSafety) / 2.0;
    score := score - f.toxicity * 0.5;
    if f.capitalizationRatio > 0.3 { score := score - 0.1; }
    if f.titleExclamationCount > 3 { score := score - 0.05; }
    if f.sentiment < -0.3 {
      score := score - 0.1;
    } else if f.sentiment > 0.3 {
      score := score + 0.05;
    }
    var brightness := OrElse(f.brightness, 0.5);
    if brightness < 0.2 || brightness > 0.9 { score := score - 0.05; }
    r := Clamp(score, 0.0, 1.0);
  }

  /** More toxicity never raises the safety score; each 0.1 of toxicity costs 0.05 before clamping. */
  lemma SafetyToxicityMonotone(f: Features, t1: real, t2: real)
    requires t1 <= t2
    ensures SafetyRaw(f.(toxicity := t2)) == SafetyRaw(f.(toxicity := t1)) - (t2 - t1) * 0.5
    ensures Clamp(SafetyRaw(f.(toxicity := t2)), 0.0, 1.0) <= Clamp(SafetyRaw(f.(toxicity := t1)), 0.0, 1.0)
  {
    ClampMonotone(SafetyRaw(f.(toxicity := t2)), SafetyRaw(f.(toxicity := t1)), 0.0, 1.0);
  }

  /** The sharpness rule of the production score. */
  function SharpnessTerm(sharpness: real): real
  {
    if sharpness > 0.7 then 0.15 else if sharpness < 0.3 then -0.1 else 0.0
  }

  /** The resolution rule of the production score. */
  function ResolutionTerm(resolution: string): real
  {
    if resolution == "1080p" then 0.1 else if resolution == "4K" then 0.15 else 0.0
  }

  /** The production score before clamping. */
  function ProductionRaw(f: Features): real
  {
    var brightness := OrElse(f.brightness, 0.5);
    (0.5 + f.aiProductionQuality) / 2.0 + SharpnessTerm(f.sharpness)
      + B(0.3 <= brightness <= 0.8, 0.05) + B(f.contrast > 0.5, 0.05)
      + ResolutionTerm(f.estimatedResolution) + B(f.hasAudio, 0.05)
      + B(f.composition > 0.6, 0.1) + B(f.estimatedFps >= 30.0, 0.05) + B(f.faceConfidence > 0.8, 0.05)
  }

  /** `_calculate_production_score`. */
  method ProductionScore(f: Features) returns (r: real)
    ensures r == Clamp(ProductionRaw(f), 0.0, 1.0)
    ensures 0.0 <= r <= 1.0
  {
    var score := 0.5;
    score := (score + f.aiProductionQuality) / 2.0;
    score := score + SharpnessTerm(f.sharpness);
    var brightness := OrElse(f.brightness, 0.5);
    score := Bump(score, 0.3 <= brightness <= 0.8, 0.05);
    score := Bump(score, f.contrast > 0.5, 0.05);
    score := score + ResolutionTerm(f.estimatedResolution);
    score := Bump(score, f.hasAudio, 0.05);
    score := Bump(score, f.composition > 0.6, 0.1);
    score := Bump(score, f.estimatedFps >= 30.0, 0.05);
    score := Bump(score, f.faceConfidence > 0.8, 0.05);
    r := Clamp(score, 0.0, 1.0);
  }

  /** 4K earns more than 1080p, which earns more than any other resolution. */
  lemma ProductionResolutionOrder(f: Features, other: string)
    requires other != "1080p" && other != "4K"
    ensures ProductionRaw(f.(estimatedResolution := "4K")) == ProductionRaw(f.(estimatedResolution := "1080p")) + 0.05
    ensures ProductionRaw(f.(estimatedResolution := "1080p")) == ProductionRaw(f.(estimatedResolution := other)) + 0.1
  {
  }

  // ---------------------------------------------------------------- overall score and rating

  datatype Scores = Scores(engagement: real, educational: real, creativity: real, safety: real, production: real)
  {
    predicate InUnit()
    {
      0.0 <= engagement <= 1.0 && 0.0 <= educational <= 1.0 && 0.0 <= creativity <= 1.0
      && 0.0 <= safety <= 1.0 && 0.0 <= production <= 1.0
    }
  }

  /** The scorer's own weights; they differ from the configured ones in the safety and production shares. */
  const ScorerWeights: Config.Weights := Config.Weights(0.25, 0.20, 0.20, 0.15, 0.20)

  /** One dimension's share of the overall score. */
  function Part(score: real, weight: real): real { score * weight }

  /** The weighted overall score. */
  function Overall(s: Scores, w: Config.Weights): real
  {
    Part(s.engagement, w.engagement) + Part(s.educational, w.educational) + Part(s.creativity, w.creativity)
    + Part(s.safety, w.safety) + Part(s.production, w.production)
  }

  /** Non-negative weights summing to 1 make the overall score a convex combination of the dimension scores. */
  lemma OverallConvex(s: Scores, w: Config.Weights)
    requires s.InUnit()
    requires w.engagement >= 0.0 && w.educational >= 0.0 && w.creativity >= 0.0
    requires w.safety >= 0.0 && w.production >= 0.0 && w.Sum() == 1.0
    ensures 0.0 <= Overall(s, w) <= 1.0
  {
    UnitProduct(s.engagement, w.engagement);
    UnitProduct(s.educational, w.educational);
    UnitProduct(s.creativity, w.creativity);
    UnitProduct(s.safety, w.safety);
    UnitProduct(s.production, w.production);
  }

  /** Five equal dimension scores give that score overall. */
  lemma OverallOfEqual(x: real, w: Config.Weights)
    requires w.Sum() == 1.0
    ensures Overall(Scores(x, x, x, x, x), w) == x
  {
    assert Overall(Scores(x, x, x, x, x), w) == x * w.Sum();
  }

  lemma UnitProduct(x: real, w: real)
    requires 0.0 <= x <= 1.0 && w >= 0.0
    ensures 0.0 <= Part(x, w) <= w
  {
    assert w - x * w == (1.0 - x) * w;
    assert (1.0 - x) * w >= 0.0;
  }

  /** The scorer's weights and the configured ones both sum to 1. */
  lemma ScorerWeightsSumToOne()
    ensures ScorerWeights.Sum() == 1.0
    ensures ScorerWeights != Config.QualityWeights && Config.QualityWeights.Sum() == 1.0
  {
  }

  /** `_get_quality_rating`. */
  function Rating(score: real): string
  {
    if score >= 0.8 then "excellent" else if score >= 0.6 then "good" else if score >= 0.4 then "fair" else "poor"
  }

  function RatingRank(rating: string): nat
  {
    if rating == "excellent" then 3 else if rating == "good" then 2 else if rating == "fair" then 1 else 0
  }

  lemma RatingBands(score: real)
    ensures Rating(score) == "excellent" <==> score >= 0.8
    ensures Rating(score) == "good" <==> 0.6 <= score < 0.8
    ensures Rating(score) == "fair" <==> 0.4 <= score < 0.6
    ensures Rating(score) == "poor" <==> score < 0.4
  {
  }

  lemma RatingMonotone(a: real, b: real)
    requires a <= b
    ensures RatingRank(Rating(a)) <= RatingRank(Rating(b))
  {
  }

  // ---------------------------------------------------------------- recommendations

  datatype Tip =
    | DescriptiveTitle | LongerContent | DynamicElements
    | DetailedDescription | EducationalElements
    | CreativeApproaches | DiverseColors
    | Sharpness | Lighting | Overexposure
    | HarmfulLanguage | CommunityGuidelines
    | GreatWork

  /** The text the source appends for each tip. */
  function TipMessage(t: Tip): string
  {
    match t
    case DescriptiveTitle => "Consider making your title more descriptive and engaging"
    case LongerContent => "Try creating longer content to provide more value"
    case DynamicElements => "Add more dynamic elements or movement to increase engagement"
    case DetailedDescription => "Add more detailed descriptions to increase educational value"
    case EducationalElements => "Consider adding educational elements or explaining concepts"
    case CreativeApproaches => "Try experimenting with unique angles or creative approaches"
    case DiverseColors => "Consider using more diverse colors or visual elements"
    case Sharpness => "Improve image sharpness and focus"
    case Lighting => "Increase lighting for better visibility"
    case Overexposure => "Reduce overexposure for better visual quality"
    case HarmfulLanguage => "Review content for potentially harmful language"
    case CommunityGuidelines => "Ensure content follows community guidelines"
    case GreatWork => "Great work! Your content shows good quality across all dimensions"
  }

  /** When each rule tip is given. */
  predicate Applies(t: Tip, f: Features, s: Scores)
  {
    match t
    case DescriptiveTitle => s.engagement < 0.6 && f.titleLength < 10
    case LongerContent => s.engagement < 0.6 && OrElse(f.videoDuration, 0.0) < 10.0
    case DynamicElements => s.engagement < 0.6 && f.motionScore < 0.3
    case DetailedDescription => s.educational < 0.5 && f.descriptionLength < 50
    case EducationalElements => s.educational < 0.5
    case CreativeApproaches => s.creativity < 0.5
    case DiverseColors => s.creativity < 0.5 && f.colorVariety < 0.5
    case Sharpness => s.production < 0.6 && f.sharpness < 0.5
    case Lighting => s.production < 0.6 && OrElse(f.brightness, 0.0) < 0.3
    case Overexposure => s.production < 0.6 && OrElse(f.brightness, 0.0) > 0.9
    case HarmfulLanguage => s.safety < 0.7 && f.toxicity > 0.3
    case CommunityGuidelines => s.safety < 0.7
    case GreatWork => false
  }

  /** The tips of each dimension's section, each section guarded by its score as in the source. */
  function EngagementTips(f: Features, s: Scores): seq<Tip>
  {
    if s.engagement < 0.6 then
      When(f.titleLength < 10, DescriptiveTitle) + When(OrElse(f.videoDuration, 0.0) < 10.0, LongerContent)
      + When(f.motionScore < 0.3, DynamicElements)
    else []
  }

  function EducationalTips(f: Features, s: Scores): seq<Tip>
  {
    if s.educational < 0.5 then When(f.descriptionLength < 50, DetailedDescription) + [EducationalElements] else []
  }

  function CreativityTips(f: Features, s: Scores): seq<Tip>
  {
    if s.creativity < 0.5 then [CreativeApproaches] + When(f.colorVariety < 0.5, DiverseColors) else []
  }

  function ProductionTips(f: Features, s: Scores): seq<Tip>
  {
    if s.production < 0.6 then
      When(f.sharpness < 0.5, Sharpness) + When(OrElse(f.brightness, 0.0) < 0.3, Lighting)
      + When(OrElse(f.brightness, 0.0) > 0.9, Overexposure)
    else []
  }

  function SafetyTips(f: Features, s: Scores): seq<Tip>
  {
    if s.safety < 0.7 then When(f.toxicity > 0.3, HarmfulLanguage) + [CommunityGuidelines] else []
  }

  /** The rule tips that apply, in the order the source checks them. */
  function RuleTips(f: Features, s: Scores): seq<Tip>
  {
    EngagementTips(f, s) + EducationalTips(f, s) + CreativityTips(f, s) + ProductionTips(f, s) + SafetyTips(f, s)
  }

  /** Some dimension is weak enough for one of its tips to be given. */
  predicate AnyRuleFires(f: Features, s: Scores)
  {
    exists t :: Applies(t, f, s)
  }

  /** `_generate_recommendations`: the applying rule tips in order, or the single praise when none applies. */
  method Recommendations(f: Features, s: Scores) returns (r: seq<Tip>)
    ensures r == (if RuleTips(f, s) == [] then [GreatWork] else RuleTips(f, s))
  {
    ghost var e, d, c, p, y := EngagementTips(f, s), EducationalTips(f, s), CreativityTips(f, s),
                               ProductionTips(f, s), SafetyTips(f, s);
    r := [];
    r := AppendEngagementTips(r, f, s);
    assert r == e;
    r := AppendEducationalTips(r, f, s);
    r := AppendCreativityTips(r, f, s);
    r := AppendProductionTips(r, f, s);
    r := AppendSafetyTips(r, f, s);
    assert r == e + d + c + p + y == RuleTips(f, s);
    if |r| == 0 {
      r := r + [GreatWork];
    }
  }

  /** The engagement section of `_generate_recommendations`. */
  method AppendEngagementTips(r0: seq<Tip>, f: Features, s: Scores) returns (r: seq<Tip>)
    ensures r == r0 + EngagementTips(f, s)
  {
    r := r0;
    if s.engagement < 0.6 {
      if f.titleLength < 10 { r := r + [DescriptiveTitle]; }
      if OrElse(f.videoDuration, 0.0) < 10.0 { r := r + [LongerContent]; }
      if f.motionScore < 0.3 { r := r + [DynamicElements]; }
    }
  }

  /** The educational section of `_generate_recommendations`. */
  method AppendEducationalTips(r0: seq<Tip>, f: Features, s: Scores) returns (r: seq<Tip>)
    ensures r == r0 + EducationalTips(f, s)
  {
    r := r0;
    if s.educational < 0.5 {
      if f.descriptionLength < 50 { r := r + [DetailedDescription]; }
      r := r + [EducationalElements];
    }
  }

  /** The creativity section of `_generate_recommendations`. */
  method AppendCreativityTips(r0: seq<Tip>, f: Features, s: Scores) returns (r: seq<Tip>)
    ensures r == r0 + CreativityTips(f, s)
  {
    r := r0;
    if s.creativity < 0.5 {
      r := r + [CreativeApproaches];
      if f.colorVariety < 0.5 { r := r + [DiverseColors]; }
    }
  }

  /** The production section of `_generate_recommendations`. */
  method AppendProductionTips(r0: seq<Tip>, f: Features, s: Scores) returns (r: seq<Tip>)
    ensures r == r0 + ProductionTips(f, s)
  {
    r := r0;
    if s.production < 0.6 {
      if f.sharpness < 0.5 { r := r + [Sharpness]; }
      if OrElse(f.brightness, 0.0) < 0.3 { r := r + [Lighting]; }
      if OrElse(f.brightness, 0.0) > 0.9 { r := r + [Overexposure]; }
    }
  }

  /** The safety section of `_generate_recommendations`. */
  method AppendSafetyTips(r0: seq<Tip>, f: Features, s: Scores) returns (r: seq<Tip>)
    ensures r == r0 + SafetyTips(f, s)
  {
    r := r0;
    if s.safety < 0.7 {
      if f.toxicity > 0.3 { r := r + [HarmfulLanguage]; }
      r := r + [CommunityGuidelines];
    }
  }

  /** The section of the source that gives each tip; the praise belongs to none. */
  function Section(t: Tip): nat
  {
    match t
    case DescriptiveTitle | LongerContent | DynamicElements => 0
    case DetailedDescription | EducationalElements => 1
    case CreativeApproaches | DiverseColors => 2
    case Sharpness | Lighting | Overexposure => 3
    case HarmfulLanguage | CommunityGuidelines => 4
    case GreatWork => 5
  }

  lemma EngagementTipsMembers(f: Features, s: Scores, t: Tip)
    ensures t in EngagementTips(f, s) <==> Section(t) == 0 && Applies(t, f, s)
  {
    WhenMember(f.titleLength < 10, DescriptiveTitle, t);
    WhenMember(OrElse(f.videoDuration, 0.0) < 10.0, LongerContent, t);
    WhenMember(f.motionScore < 0.3, DynamicElements, t);
  }

  lemma EducationalTipsMembers(f: Features, s: Scores, t: Tip)
    ensures t in EducationalTips(f, s) <==> Section(t) == 1 && Applies(t, f, s)
  {
    WhenMember(f.descriptionLength < 50, DetailedDescription, t);
  }

  lemma CreativityTipsMembers(f: Features, s: Scores, t: Tip)
    ensures t in CreativityTips(f, s) <==> Section(t) == 2 && Applies(t, f, s)
  {
    WhenMember(f.colorVariety < 0.5, DiverseColors, t);
  }

  lemma ProductionTipsMembers(f: Features, s: Scores, t: Tip)
    ensures t in ProductionTips(f, s) <==> Section(t) == 3 && Applies(t, f, s)
  {
    WhenMember(f.sharpness < 0.5, Sharpness, t);
    WhenMember(OrElse(f.brightness, 0.0) < 0.3, Lighting, t);
    WhenMember(OrElse(f.brightness, 0.0) > 0.9, Overexposure, t);
  }

  lemma SafetyTipsMembers(f: Features, s: Scores, t: Tip)
    ensures t in SafetyTips(f, s) <==> Section(t) == 4 && Applies(t, f, s)
  {
    WhenMember(f.toxicity > 0.3, HarmfulLanguage, t);
  }

  /** Each tip is among the rule tips exactly when its rule applies; the praise never is. */
  lemma RuleTipsMembers(f: Features, s: Scores, t: Tip)
    ensures t in RuleTips(f, s) <==> Applies(t, f, s)
  {
    var e, d, c, p, y := EngagementTips(f, s), EducationalTips(f, s), CreativityTips(f, s),
                         ProductionTips(f, s), SafetyTips(f, s);
    assert RuleTips(f, s) == e + d + c + p + y;
    assert t in RuleTips(f, s) <==> t in e || t in d || t in c || t in p || t in y;
    EngagementTipsMembers(f, s, t);
    EducationalTipsMembers(f, s, t);
    CreativityTipsMembers(f, s, t);
    ProductionTipsMembers(f, s, t);
    SafetyTipsMembers(f, s, t);
    assert Applies(t, f, s) ==> Section(t) < 5;
  }

  /**
   * The list is never empty; the praise appears exactly when no rule tip
   * applies, and then alone; every other tip appears exactly when its rule
   * applies.
   */
  lemma RecommendationsShape(f: Features, s: Scores, t: Tip)
    requires t != GreatWork
    ensures var r := (if RuleTips(f, s) == [] then [GreatWork] else RuleTips(f, s));
      && |r| >= 1
      && (GreatWork in r <==> !AnyRuleFires(f, s))
      && (!AnyRuleFires(f, s) ==> r == [GreatWork])
      && (t in r <==> Applies(t, f, s))
  {
    RuleTipsMembers(f, s, t);
    RuleTipsMembers(f, s, GreatWork);
    if AnyRuleFires(f, s) {
      var u :| Applies(u, f, s);
      RuleTipsMembers(f, s, u);
    } else if RuleTips(f, s) != [] {
      RuleTipsMembers(f, s, RuleTips(f, s)[0]);
    }
  }

  /** The praise is given exactly when every dimension clears its bar or none of its sub-rules holds. */
  lemma GreatWorkIff(f: Features, s: Scores)
    ensures !AnyRuleFires(f, s) <==>
      && !(s.engagement < 0.6 && (f.titleLength < 10 || OrElse(f.videoDuration, 0.0) < 10.0 || f.motionScore < 0.3))
      && s.educational >= 0.5 && s.creativity >= 0.5 && s.safety >= 0.7
      && !(s.production < 0.6 && (f.sharpness < 0.5 || OrElse(f.brightness, 0.0) < 0.3 || OrElse(f.brightness, 0.0) > 0.9))
  {
    if s.engagement < 0.6 && f.titleLength < 10 { assert Applies(DescriptiveTitle, f, s); }
    if s.engagement < 0.6 && OrElse(f.videoDuration, 0.0) < 10.0 { assert Applies(LongerContent, f, s); }
    if s.engagement < 0.6 && f.motionScore < 0.3 { assert Applies(DynamicElements, f, s); }
    if s.educational < 0.5 { assert Applies(EducationalElements, f, s); }
    if s.creativity < 0.5 { assert Applies(CreativeApproaches, f, s); }
    if s.safety < 0.7 { assert Applies(CommunityGuidelines, f, s); }
    if s.production < 0.6 && f.sharpness < 0.5 { assert Applies(Sharpness, f, s); }
    if s.production < 0.6 && OrElse(f.brightness, 0.0) < 0.3 { assert Applies(Lighting, f, s); }
    if s.production < 0.6 && OrElse(f.brightness, 0.0) > 0.9 { assert Applies(Overexposure, f, s); }
  }

  /** A low educational score always asks for educational elements; a low safety score always asks to follow the guidelines. */
  lemma AlwaysAddedTips(f: Features, s: Scores)
    ensures s.educational < 0.5 ==> EducationalElements in RuleTips(f, s)
    ensures s.safety < 0.7 ==> CommunityGuidelines in RuleTips(f, s)
  {
    RuleTipsMembers(f, s, EducationalElements);
    RuleTipsMembers(f, s, CommunityGuidelines);
  }

  /** The messages of a list of tips. */
  function Messages(tips: seq<Tip>): (ms: seq<string>)
    ensures |ms| == |tips| && forall i | 0 <= i < |tips| :: ms[i] == TipMessage(tips[i])
  {
    if tips == [] then [] else [TipMessage(tips[0])] + Messages(tips[1..])
  }

  // ---------------------------------------------------------------- history and trends

  datatype HistoryEntry = HistoryEntry(contentId: string, score: real, timestamp: int, contentType: string)

  const HistoryLimit: nat := 100

  /** `xs[-n:]` when the list is longer than `n`, else the list. */
  function KeepLast<T>(xs: seq<T>, n: nat): (r: seq<T>)
    ensures |r| == if |xs| > n then n else |xs|
    ensures r == xs[|xs| - |r|..]
  {
    if |xs| > n then xs[|xs| - n..] else xs
  }

  /** The concatenation of the histories of `creators`, in order. */
  function AllHistory(history: map<string, seq<HistoryEntry>>, creators: seq<string>): seq<HistoryEntry>
  {
    if creators == [] then []
    else (if creators[0] in history then history[creators[0]] else []) + AllHistory(history, creators[1..])
  }

  /** `sum(len(h) for h in quality_history.values())`. */
  function SumLengths(history: map<string, seq<HistoryEntry>>, creators: seq<string>): nat
  {
    if creators == [] then 0
    else (if creators[0] in history then |history[creators[0]]| else 0) + SumLengths(history, creators[1..])
  }

  lemma {:induction false} SumLengthsIsConcatLength(history: map<string, seq<HistoryEntry>>, creators: seq<string>)
    ensures SumLengths(history, creators) == |AllHistory(history, creators)|
  {
    if creators != [] {
      SumLengthsIsConcatLength(history, creators[1..]);
    }
  }

  /** The time window `get_quality_trends` reads: `int(time_range.rstrip('d'))` days. */
  function TrendDays(timeRange: string): Option<int>
  {
    Text.ParseInt(Text.RStrip(timeRange, 'd'))
  }

  /** `timedelta(days=d)` raises `OverflowError` unless `|d|` is at most 999999999. */
  const MaxTimedeltaDays := 999999999
  /** `datetime.min` and `datetime.max` (years 1 and 9999), in seconds from the Unix epoch. */
  const MinDatetimeSeconds := -62135596800
  const MaxDatetimeSeconds := 253402300799

  /** `utcnow() - timedelta(days=days)` at time `now`: `None` where the `timedelta` or the
      resulting `datetime` overflows. */
  function Cutoff(days: int, now: int): (r: Option<int>)
    ensures r.Some? <==> -MaxTimedeltaDays <= days <= MaxTimedeltaDays
                         && MinDatetimeSeconds <= now - days * 86400 <= MaxDatetimeSeconds
    ensures r.Some? ==> r.value == now - days * 86400
  {
    if -MaxTimedeltaDays <= days <= MaxTimedeltaDays && MinDatetimeSeconds <= now - days * 86400 <= MaxDatetimeSeconds
    then Some(now - days * 86400) else None
  }

  /** The cutoff of `get_quality_trends`: `None` when `int()` fails or the date arithmetic overflows. */
  function TrendCutoff(timeRange: string, now: int): Option<int>
  {
    var days := TrendDays(timeRange);
    if days.None? then None else Cutoff(days.value, now)
  }

  /** `int(str(n) + "d".rstrip('d')) == n`: a numeral followed by `d` is that many days. */
  lemma TrendDaysOfNumeral(n: nat)
    ensures TrendDays(Text.NatToString(n) + "d") == Some(n)
  {
    var s := Text.NatToString(n);
    assert (s + "d")[..|s + "d"| - 1] == s;
    assert Text.RStrip(s + "d", 'd') == Text.RStrip(s, 'd') == s;
    Text.ParseIntOfNatToString(n);
  }

  /** With `now` at or before year 9999, every window of 3652059 days or more reaches before
      year 1, so the date arithmetic fails. */
  lemma TrendCutoffOverflows(timeRange: string, now: int)
    requires TrendDays(timeRange).Some? && now <= MaxDatetimeSeconds
    requires TrendDays(timeRange).value >= 3652059
    ensures TrendCutoff(timeRange, now).None?
  {
  }

  /** Entries newer than the cutoff, in order. */
  function Recent(entries: seq<HistoryEntry>, cutoff: int): (r: seq<HistoryEntry>)
    ensures |r| <= |entries|
    ensures forall e :: e in r <==> e in entries && e.timestamp > cutoff
  {
    if entries == [] then []
    else (if entries[0].timestamp > cutoff then [entries[0]] else []) + Recent(entries[1..], cutoff)
  }

  function ScoresOf(entries: seq<HistoryEntry>): (r: seq<real>)
    ensures |r| == |entries| && forall i | 0 <= i < |entries| :: r[i] == entries[i].score
  {
    if entries == [] then [] else [entries[0].score] + ScoresOf(entries[1..])
  }

  function Sum(xs: seq<real>): real
  {
    if xs == [] then 0.0 else xs[0] + Sum(xs[1..])
  }

  /** `np.mean`, on exact reals. */
  function Mean(xs: seq<real>): real
    requires xs != []
  {
    Sum(xs) / |xs| as real
  }

  function MaxOf(xs: seq<real>): (r: real)
    requires xs != []
    ensures r in xs && forall i | 0 <= i < |xs| :: xs[i] <= r
  {
    if |xs| == 1 then xs[0] else Max(xs[0], MaxOf(xs[1..]))
  }

  function MinOf(xs: seq<real>): (r: real)
    requires xs != []
    ensures r in xs && forall i | 0 <= i < |xs| :: r <= xs[i]
  {
    if |xs| == 1 then xs[0] else Min(xs[0], MinOf(xs[1..]))
  }

  /** `len([s for s in xs if lo <= s < hi])`. */
  function CountIn(xs: seq<real>, lo: Option<real>, hi: Option<real>): nat
  {
    if xs == [] then 0
    else Ind((lo.None? || lo.value <= xs[0]) && (hi.None? || xs[0] < hi.value)) + CountIn(xs[1..], lo, hi)
  }

  datatype Trends = Trends(averageScore: real, highestScore: real, lowestScore: real, improving: bool,
                           totalContent: nat, excellent: nat, good: nat, fair: nat, poor: nat)

  datatype TrendsResult =
    | TrendsError      // the time range is not an integer number of days, or the cutoff date overflows
    | NoData           // no entry falls in the time range
    | Report(trends: Trends)

  /** The statistics of a non-empty list of scores. */
  function TrendsOf(scores: seq<real>): Trends
    requires scores != []
  {
    Trends(Mean(scores), MaxOf(scores), MinOf(scores),
           |scores| > 1 && scores[|scores| - 1] > scores[0], |scores|,
           CountIn(scores, Some(0.8), None), CountIn(scores, Some(0.6), Some(0.8)),
           CountIn(scores, Some(0.4), Some(0.6)), CountIn(scores, None, Some(0.4)))
  }

  /** The distribution buckets partition the scores, and the average lies between the extremes. */
  lemma TrendsConsistent(scores: seq<real>)
    requires scores != []
    ensures var t := TrendsOf(scores);
      && t.excellent + t.good + t.fair + t.poor == t.totalContent == |scores|
      && t.lowestScore <= t.averageScore <= t.highestScore
      && (t.improving <==> |scores| > 1 && scores[|scores| - 1] > scores[0])
  {
    BucketsPartition(scores);
    AverageBetween(scores);
  }

  lemma AverageBetween(scores: seq<real>)
    requires scores != []
    ensures MinOf(scores) <= Mean(scores) <= MaxOf(scores)
  {
    var lo, hi := MinOf(scores), MaxOf(scores);
    SumAtLeast(scores, lo);
    SumAtMost(scores, hi);
    MeanBounds(scores, lo, hi);
  }

  /** `x * n`, kept as a name so that the sum bounds stay linear where they are combined. */
  function Scale(x: real, n: nat): real { x * n as real }

  lemma MeanBounds(xs: seq<real>, lo: real, hi: real)
    requires xs != [] && Scale(lo, |xs|) <= Sum(xs) <= Scale(hi, |xs|)
    ensures lo <= Mean(xs) <= hi
  {
    var n := |xs| as real;
    DivAtLeast(Sum(xs), lo, n);
    DivAtMost(Sum(xs), hi, n);
  }

  /** Dividing a bound `lo * n <= a` by a positive `n`. */
  lemma DivAtLeast(a: real, lo: real, n: real)
    requires n > 0.0 && lo * n <= a
    ensures lo <= a / n
  {
    var q := a / n;
    assert a == q * n;
    assert (q - lo) * n >= 0.0;
  }

  /** Dividing a bound `a <= hi * n` by a positive `n`. */
  lemma DivAtMost(a: real, hi: real, n: real)
    requires n > 0.0 && a <= hi * n
    ensures a / n <= hi
  {
    var q := a / n;
    assert a == q * n;
    assert (hi - q) * n >= 0.0;
  }

  lemma {:induction false} BucketsPartition(xs: seq<real>)
    ensures CountIn(xs, Some(0.8), None) + CountIn(xs, Some(0.6), Some(0.8))
          + CountIn(xs, Some(0.4), Some(0.6)) + CountIn(xs, None, Some(0.4)) == |xs|
  {
    if xs != [] {
      BucketsPartition(xs[1..]);
    }
  }

  lemma {:induction false} SumAtLeast(xs: seq<real>, lo: real)
    requires forall i | 0 <= i < |xs| :: lo <= xs[i]
    ensures Scale(lo, |xs|) <= Sum(xs)
  {
    if xs != [] {
      SumAtLeast(xs[1..], lo);
    }
  }

  lemma {:induction false} SumAtMost(xs: seq<real>, hi: real)
    requires forall i | 0 <= i < |xs| :: xs[i] <= hi
    ensures Sum(xs) <= Scale(hi, |xs|)
  {
    if xs != [] {
      SumAtMost(xs[1..], hi);
    }
  }

  /** Python truthiness of an optional creator id. */
  predicate Named(creatorId: Option<string>) { creatorId.Some? && creatorId.value != "" }

  class QualityScorer {
    /** `quality_history`, with `creators` keeping the dictionary's insertion order. */
    var history: map<string, seq<HistoryEntry>>
    var creators: seq<string>

    ghost predicate Valid()
      reads this
    {
      (forall i, j | 0 <= i < j < |creators| :: creators[i] != creators[j])
      && (forall c :: c in history <==> c in creators)
    }

    /** Every creator's list keeps at most 100 entries. */
    ghost predicate Bounded()
      reads this
    {
      forall c | c in history :: |history[c]| <= HistoryLimit
    }

    constructor ()
      ensures Valid() && Bounded()
      ensures history == map[] && creators == []
    {
      history := map[];
      creators := [];
    }

    /** `_store_quality_history` at time `now`. */
    method StoreQualityHistory(contentId: string, score: real, f: Features, now: int)
      requires Valid()
      modifies this
      ensures Valid()
      ensures old(Bounded()) ==> Bounded()
      ensures history == Stored(old(history), f.creatorId, HistoryEntry(contentId, score, now, f.contentType))
      ensures creators == if f.creatorId in old(history) then old(creators) else old(creators) + [f.creatorId]
    {
      var creatorId := f.creatorId;
      var entry := HistoryEntry(contentId, score, now, f.contentType);
      if creatorId !in history {
        creators := creators + [creatorId];
        history := history[creatorId := []];
      }
      var list := history[creatorId] + [entry];
      if |list| > HistoryLimit {
        list := list[|list| - HistoryLimit..];
      }
      history := history[creatorId := list];
    }

    /** `calculate_scores` at time `now`; the history is written only for a truthy content id. */
    method CalculateScores(f: Features, contentId: Option<string>, now: int)
      returns (overall: real, rating: string, s: Scores, tips: seq<Tip>)
      requires Valid()
      modifies this
      ensures Valid()
      ensures old(Bounded()) ==> Bounded()
      ensures s == Scores(Clamp(EngagementRaw(f), 0.0, 1.0), Clamp(EducationalRaw(f), 0.0, 1.0),
                          Clamp(CreativityRaw(f), 0.0, 1.0), Clamp(SafetyRaw(f), 0.0, 1.0),
                          Clamp(ProductionRaw(f), 0.0, 1.0))
      ensures overall == Overall(s, ScorerWeights) && 0.0 <= overall <= 1.0
      ensures rating == Rating(overall)
      ensures tips == (if RuleTips(f, s) == [] then [GreatWork] else RuleTips(f, s))
      ensures !Named(contentId) ==> history == old(history) && creators == old(creators)
      ensures Named(contentId) ==>
        history == Stored(old(history), f.creatorId, HistoryEntry(contentId.value, overall, now, f.contentType))
      ensures Named(contentId) ==>
        creators == if f.creatorId in old(history) then old(creators) else old(creators) + [f.creatorId]
    {
      var engagement := EngagementScore(f);
      var educational := EducationalScore(f);
      var creativity := CreativityScore(f);
      var safety := SafetyScore(f);
      var production := ProductionScore(f);
      s := Scores(engagement, educational, creativity, safety, production);
      overall := Overall(s, ScorerWeights);
      OverallConvex(s, ScorerWeights);
      rating := Rating(overall);
      tips := Recommendations(f, s);
      if Named(contentId) {
        StoreQualityHistory(contentId.value, overall, f, now);
      }
    }

    /** The entries `get_quality_trends` reads: one creator's list, or every list in insertion order. */
    function Selected(creatorId: Option<string>): seq<HistoryEntry>
      reads this
    {
      if Named(creatorId) then (if creatorId.value in history then history[creatorId.value] else [])
      else AllHistory(history, creators)
    }

    /** `get_quality_trends` at time `now`, in seconds from the Unix epoch. */
    function QualityTrends(creatorId: Option<string>, timeRange: string, now: int): (r: TrendsResult)
      reads this
      ensures TrendCutoff(timeRange, now).None? <==> r.TrendsError?
      ensures r.NoData? <==> TrendCutoff(timeRange, now).Some? && Recent(Selected(creatorId), TrendCutoff(timeRange, now).value) == []
      ensures r.Report? ==> r.trends.totalContent == |Recent(Selected(creatorId), TrendCutoff(timeRange, now).value)|
    {
      var cutoff := TrendCutoff(timeRange, now);
      if cutoff.None? then TrendsError
      else
        var recent := Recent(Selected(creatorId), cutoff.value);
        if recent == [] then NoData else Report(TrendsOf(ScoresOf(recent)))
    }

    /** `time_range = str(n) + "d"` is an error when `timedelta` or the cutoff date overflows:
        for example 1000000 days at any time before November 2738. */
    lemma TrendsOverflowIsError(creatorId: Option<string>, n: nat, now: int)
      requires n > MaxTimedeltaDays || now - n * 86400 < MinDatetimeSeconds
      ensures QualityTrends(creatorId, Text.NatToString(n) + "d", now).TrendsError?
    {
      TrendDaysOfNumeral(n);
    }

    /** `get_status`: the number of stored entries and of tracked creators. */
    function Status(): (r: (nat, nat))
      reads this
      ensures r.0 == |AllHistory(history, creators)|
      ensures r.1 == |history|
    {
      SumLengthsIsConcatLength(history, creators);
      (SumLengths(history, creators), |history|)
    }
  }

  /** The history after `entry` is stored for creator `c`: appended, then cut to the newest 100. */
  function Stored(history: map<string, seq<HistoryEntry>>, c: string, entry: HistoryEntry): map<string, seq<HistoryEntry>>
  {
    var before := if c in history then history[c] else [];
    history[c := KeepLast(before + [entry], HistoryLimit)]
  }

  /** Storing keeps the newest entry and at most 100 per creator, drops only the oldest, and leaves other creators alone. */
  lemma StoreKeepsNewest(history: map<string, seq<HistoryEntry>>, c: string, entry: HistoryEntry, other: string)
    requires other != c
    ensures var before := if c in history then history[c] else [];
      var after := Stored(history, c, entry);
      && c in after
      && |after[c]| <= HistoryLimit
      && after[c][|after[c]| - 1] == entry
      && (|before| < HistoryLimit ==> after[c] == before + [entry])
      && (|before| >= HistoryLimit ==> after[c] == before[|before| - HistoryLimit + 1..] + [entry])
      && (other in history <==> other in after)
      && (other in history ==> after[other] == history[other])
  {
    var before := if c in history then history[c] else [];
    var list := before + [entry];
    if |before| >= HistoryLimit {
      assert list[|list| - HistoryLimit..] == before[|before| - HistoryLimit + 1..] + [entry];
    }
  }
}
