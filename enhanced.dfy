/**
 * The local heuristics of `EnhancedContentAnalyzer`: the keyword tables the
 * analyzer starts with, the five integer scorers that add and subtract
 * bonuses on a running score and clamp it into [0, 100], the creativity
 * score with its vocabulary-richness term, monetization, confidence,
 * recommendations, the breakdown scores and the local analysis that
 * composes them.
 */
module Enhanced {
  import opened Base
  import opened Text

  // ---------------------------------------------------------------- keyword tables

  const Positive: seq<string> := ["amazing", "love", "great", "awesome", "fantastic", "incredible", "wonderful"]
  const Negative: seq<string> := ["hate", "terrible", "awful", "bad", "horrible", "disgusting", "worst"]
  const EducationalWords: seq<string> := ["learn", "tutorial", "how to", "guide", "explanation", "science", "history"]
  const CreativeWords: seq<string> := ["art", "music", "dance", "creative", "original", "unique", "innovative"]
  /** The `sentiment_keywords` categories in the order the dictionary lists them. */
  const SentimentCategories: seq<seq<string>> := [Positive, Negative, EducationalWords, CreativeWords]

  const HighQuality: seq<string> := ["detailed", "comprehensive", "accurate", "well-explained", "professional"]
  const LowQuality: seq<string> := ["clickbait", "misleading", "fake", "spam", "repetitive", "low-effort"]
  const ViralPotential: seq<string> := ["trending", "challenge", "reaction", "funny", "shocking", "relatable"]

  const TrendingTags: seq<string> := ["ai", "tech", "tutorial", "challenge", "viral", "trending"]
  const UnsafeWords: seq<string> := ["violence", "drugs", "inappropriate", "dangerous", "illegal"]
  const SafeWords: seq<string> := ["educational", "family-friendly", "positive", "inspiring"]
  const ExplanationWords: seq<string> := ["explain", "because", "reason", "why", "how"]
  const UniqueWords: seq<string> := ["original", "new", "first", "unique", "never", "breakthrough"]
  const CreativeTags: seq<string> := ["art", "music", "dance", "creative", "diy", "original"]
  const CallToAction: seq<string> := ["subscribe", "like", "follow", "comment", "share"]

  // ---------------------------------------------------------------- counting

  /** `sum(1 for word in words if word in text)`: how many of `words` occur somewhere in `text`. */
  function PresentCount(words: seq<string>, text: string): (n: nat)
    ensures n <= |words|
  {
    if words == [] then 0 else Ind(Contains(text, words[0])) + PresentCount(words[1..], text)
  }

  /** No keyword occurs exactly when the count is zero; all occur exactly when it is the list's length. */
  lemma {:induction false} PresentCountExtremes(words: seq<string>, text: string)
    ensures PresentCount(words, text) == 0 <==> forall i | 0 <= i < |words| :: !Contains(text, words[i])
    ensures PresentCount(words, text) == |words| <==> forall i | 0 <= i < |words| :: Contains(text, words[i])
  {
    if words != [] {
      PresentCountExtremes(words[1..], text);
      assert forall i | 1 <= i < |words| :: words[i] == words[1..][i - 1];
    }
  }

  /**
   * The count depends only on which keywords occur, not on how often: two
   * texts containing the same keywords score the same.
   */
  lemma {:induction false} PresentCountByPresence(words: seq<string>, a: string, b: string)
    requires forall i | 0 <= i < |words| :: Contains(a, words[i]) == Contains(b, words[i])
    ensures PresentCount(words, a) == PresentCount(words, b)
  {
    if words != [] {
      assert forall i | 0 <= i < |words[1..]| :: words[1..][i] == words[i + 1];
      PresentCountByPresence(words[1..], a, b);
    }
  }

  /** `sum(1 for x in xs if x in list)`: how many entries of `xs` are members of `list`, repeats included. */
  function MemberCount(xs: seq<string>, list: seq<string>): (n: nat)
    ensures n <= |xs|
  {
    if xs == [] then 0 else MemberCount(xs[..|xs| - 1], list) + Ind(xs[|xs| - 1] in list)
  }

  lemma {:induction false} MemberCountAppend(xs: seq<string>, ys: seq<string>, list: seq<string>)
    ensures MemberCount(xs + ys, list) == MemberCount(xs, list) + MemberCount(ys, list)
    decreases |ys|
  {
    if ys == [] {
      assert xs + ys == xs;
    } else {
      var zs := xs + ys;
      assert zs[..|zs| - 1] == xs + ys[..|ys| - 1];
      MemberCountAppend(xs, ys[..|ys| - 1], list);
    }
  }

  /** Unlike keywords in the text, a tag listed twice counts twice. */
  lemma RepeatedTagsCountTwice(tags: seq<string>, list: seq<string>)
    ensures MemberCount(tags + tags, list) == 2 * MemberCount(tags, list)
  {
    MemberCountAppend(tags, tags, list);
  }

  /** Membership is exact: an entry counts exactly when it equals an entry of the list. */
  lemma {:induction false} MemberCountZeroIff(xs: seq<string>, list: seq<string>)
    ensures MemberCount(xs, list) == 0 <==> forall i | 0 <= i < |xs| :: xs[i] !in list
  {
    if xs != [] {
      MemberCountZeroIff(xs[..|xs| - 1], list);
    }
  }

  // ---------------------------------------------------------------- quality

  /** `if cond: score += points`. */
  method AddPoints(score: int, cond: bool, points: int) returns (s: int)
    ensures s == score + points * Ind(cond)
  {
    s := score;
    if cond {
      s := s + points;
    }
  }


  function LengthBonus(n: nat): int
  {
    10 * Ind(n > 100) + 10 * Ind(n > 300)
  }

  function QualityDurationBonus(duration: int): int
  {
    if 15 <= duration <= 60 then 15 else if duration > 0 then 5 else 0
  }

  /** The score `_calculate_quality_score` reaches before its final clamp. */
  function QualityRaw(text: string, duration: int): int
  {
    50 + LengthBonus(|text|) + 5 * PresentCount(HighQuality, text) - 10 * PresentCount(LowQuality, text)
    + QualityDurationBonus(duration) + 10 * Ind(|SplitOn(text, '.')| > 2)
  }

  /** `_calculate_quality_score`. */
  method QualityScore(text: string, duration: int) returns (r: int)
    ensures r == ClampInt(QualityRaw(text, duration), 0, 100)
    ensures 0 <= r <= 100
  {
    var score: int := 50;
    score := AddPoints(score, |text| > 100, 10);
    score := AddPoints(score, |text| > 300, 10);
    var highQualityCount := PresentCount(HighQuality, text);
    var lowQualityCount := PresentCount(LowQuality, text);
    score := score + highQualityCount * 5;
    score := score - lowQualityCount * 10;
    if 15 <= duration <= 60 {
      score := score + 15;
    } else if duration > 0 {
      score := score + 5;
    }
    var sentences := SplitOn(text, '.');
    score := AddPoints(score, |sentences| > 2, 10);
    r := ClampInt(score, 0, 100);
  }

  /** The structure bonus is given exactly when the text holds at least two periods. */
  lemma QualityStructureBonus(text: string)
    ensures |SplitOn(text, '.')| > 2 <==> Count(text, '.') >= 2
  {
    SplitOnLength(text, '.');
  }

  /**
   * A duration in the 15–60 second window earns 10 points more than any
   * other positive duration and 15 more than a missing one.
   */
  lemma QualityDurationWindow(text: string, d: int, e: int)
    requires 15 <= d <= 60 && !(15 <= e <= 60)
    ensures QualityRaw(text, d) == QualityRaw(text, e) + (if e > 0 then 10 else 15)
  {
  }

  // ---------------------------------------------------------------- engagement

  function EngagementDurationBonus(duration: int): int
  {
    if 15 <= duration <= 30 then 20 else if 30 < duration <= 60 then 10 else 0
  }

  function QuestionBonus(text: string): int
  {
    MinInt(Count(text, '?') * 3, 15)
  }

  function ExclamationBonus(text: string): int
  {
    MinInt(Count(text, '!') * 2, 10)
  }

  /** The score `_predict_engagement` reaches before its final clamp. */
  function EngagementRaw(text: string, tags: seq<string>, duration: int): int
  {
    40 + PresentCount(ViralPotential, text) * 8 + MemberCount(tags, TrendingTags) * 10
    + EngagementDurationBonus(duration) + QuestionBonus(text) + ExclamationBonus(text)
  }

  /** `_predict_engagement`; nothing in it subtracts, so the result never drops below the base 40. */
  method EngagementScore(text: string, tags: seq<string>, duration: int) returns (r: int)
    ensures r == ClampInt(EngagementRaw(text, tags, duration), 0, 100)
    ensures 40 <= r <= 100
  {
    var score := 40;
    var viralWords := PresentCount(ViralPotential, text);
    score := score + viralWords * 8;
    var trendingCount := MemberCount(tags, TrendingTags);
    score := score + trendingCount * 10;
    if 15 <= duration <= 30 {
      score := score + 20;
    } else if 30 < duration <= 60 {
      score := score + 10;
    }
    var questionMarks := Count(text, '?');
    var exclamationMarks := Count(text, '!');
    score := score + MinInt(questionMarks * 3, 15);
    score := score + MinInt(exclamationMarks * 2, 10);
    r := ClampInt(score, 0, 100);
  }

  /**
   * The punctuation bonuses are capped at 15 and 10 and grow by 3 per
   * question mark and 2 per exclamation mark until the cap.
   */
  lemma PunctuationBonuses(text: string)
    ensures 0 <= QuestionBonus(text) <= 15 && 0 <= ExclamationBonus(text) <= 10
    ensures Count(text, '?') <= 5 ==> QuestionBonus(text) == 3 * Count(text, '?')
    ensures Count(text, '!') <= 5 ==> ExclamationBonus(text) == 2 * Count(text, '!')
  {
  }

  /** The 15–30 second window is worth 20 points, 30–60 seconds 10, anything else nothing. */
  lemma EngagementDurationOrder(text: string, tags: seq<string>, d: int, e: int)
    requires 15 <= d <= 30 && 30 < e <= 60
    ensures EngagementRaw(text, tags, d) == EngagementRaw(text, tags, e) + 10
    ensures EngagementRaw(text, tags, e) == EngagementRaw(text, tags, 0) + 10
  {
  }

  // ---------------------------------------------------------------- safety

  /** The score `_calculate_safety_rating` reaches before its final clamp. */
  function SafetyRaw(text: string): int
  {
    100 - PresentCount(UnsafeWords, text) * 20 + MinInt(PresentCount(SafeWords, text) * 5, 15)
  }

  /** `_calculate_safety_rating`. */
  method SafetyScore(text: string) returns (r: int)
    ensures r == ClampInt(SafetyRaw(text), 0, 100)
    ensures 0 <= r <= 100
  {
    var score: int := 100;
    var unsafeCount := PresentCount(UnsafeWords, text);
    score := score - unsafeCount * 20;
    var safeCount := PresentCount(SafeWords, text);
    score := score + MinInt(safeCount * 5, 15);
    r := ClampInt(score, 0, 100);
  }

  /**
   * A text with no unsafe keyword is perfectly safe; each distinct unsafe
   * keyword costs 20 points that the safe keywords win back by at most 15.
   */
  lemma SafetyUnsafePenalty(text: string)
    ensures PresentCount(UnsafeWords, text) == 0 ==> ClampInt(SafetyRaw(text), 0, 100) == 100
    ensures ClampInt(SafetyRaw(text), 0, 100) <= 115 - 20 * PresentCount(UnsafeWords, text)
    ensures PresentCount(UnsafeWords, text) >= 1 ==> ClampInt(SafetyRaw(text), 0, 100) <= 95
  {
  }

  // ---------------------------------------------------------------- educational

  function HowToBonus(title: string): int
  {
    25 * Ind(Contains(title, "how to") || Contains(title, "tutorial"))
  }

  function StepBonus(text: string): int
  {
    15 * Ind(Contains(text, "step") || Contains(text, "steps"))
  }

  function ExplanationBonus(text: string): int
  {
    MinInt(PresentCount(ExplanationWords, text) * 5, 20)
  }

  /** The score `_calculate_educational_value` reaches before its final clamp. */
  function EducationalRaw(text: string, title: string): int
  {
    20 + PresentCount(EducationalWords, text) * 12 + HowToBonus(title) + StepBonus(text) + ExplanationBonus(text)
  }

  /** `_calculate_educational_value`; nothing in it subtracts, so the result is at least the base 20. */
  method EducationalScore(text: string, title: string) returns (r: int)
    ensures r == ClampInt(EducationalRaw(text, title), 0, 100)
    ensures 20 <= r <= 100
  {
    var score := 20;
    var eduWords := PresentCount(EducationalWords, text);
    score := score + eduWords * 12;
    if Contains(title, "how to") || Contains(title, "tutorial") {
      score := score + 25;
    }
    if Contains(text, "step") || Contains(text, "steps") {
      score := score + 15;
    }
    var explanationCount := PresentCount(ExplanationWords, text);
    score := score + MinInt(explanationCount * 5, 20);
    r := ClampInt(score, 0, 100);
  }

  /** A text containing "steps" contains "step", so the second half of the step test never decides. */
  lemma StepBonusIsStep(text: string)
    ensures StepBonus(text) == 15 * Ind(Contains(text, "step"))
  {
    if Contains(text, "steps") {
      ContainsIff(text, "steps");
      var i :| OccursAt(text, "steps", i);
      assert text[i..i + 4] == "steps"[..4];
      assert OccursAt(text, "step", i);
      ContainsIff(text, "step");
    }
  }

  // ---------------------------------------------------------------- creativity

  /** `len(set(words))`, counted as the words that do not occur earlier. */
  function DistinctCount(ws: seq<string>): (n: nat)
    ensures n <= |ws|
    ensures ws != [] ==> n >= 1
  {
    if ws == [] then 0 else DistinctCount(ws[..|ws| - 1]) + Ind(ws[|ws| - 1] !in ws[..|ws| - 1])
  }

  /** The distinct count is the size of the set of words. */
  lemma {:induction false} DistinctCountIsSetSize(ws: seq<string>)
    ensures DistinctCount(ws) == |set w | w in ws|
  {
    if ws != [] {
      var p, x := ws[..|ws| - 1], ws[|ws| - 1];
      DistinctCountIsSetSize(p);
      assert ws == p + [x];
      assert (set w | w in ws) == (set w | w in p) + {x};
      if x in p {
        assert (set w | w in ws) == (set w | w in p);
      }
    }
  }

  predicate NoRepeats(ws: seq<string>)
  {
    forall i, j | 0 <= i < j < |ws| :: ws[i] != ws[j]
  }

  /** Every word counts exactly when no word repeats. */
  lemma {:induction false} DistinctCountFullIff(ws: seq<string>)
    ensures DistinctCount(ws) == |ws| <==> NoRepeats(ws)
  {
    if ws != [] {
      var p, x := ws[..|ws| - 1], ws[|ws| - 1];
      DistinctCountFullIff(p);
      if NoRepeats(ws) {
        forall k | 0 <= k < |p| ensures p[k] != x {
          assert p[k] == ws[k];
        }
        forall i, j | 0 <= i < j < |p| ensures p[i] != p[j] {
          assert p[i] == ws[i] && p[j] == ws[j];
        }
      }
      if DistinctCount(ws) == |ws| {
        assert DistinctCount(p) == |p| && x !in p;
        forall i, j | 0 <= i < j < |ws| ensures ws[i] != ws[j] {
          assert ws[i] == p[i];
          if j < |ws| - 1 {
            assert ws[j] == p[j];
          }
        }
      }
    }
  }

  /** `vocabulary_richness * 30`, added only when the text has words. */
  function RichnessTerm(ws: seq<string>): real
  {
    if |ws| > 0 then Fraction(DistinctCount(ws), |ws|) * 30.0 else 0.0
  }

  /**
   * The richness term is 0 for a text without words, otherwise above 0 and
   * at most 30, with 30 exactly when no word repeats.
   */
  lemma RichnessBounds(ws: seq<string>)
    ensures ws == [] ==> RichnessTerm(ws) == 0.0
    ensures ws != [] ==> 0.0 < RichnessTerm(ws) <= 30.0
    ensures ws != [] ==> (RichnessTerm(ws) == 30.0 <==> NoRepeats(ws))
  {
    if ws != [] {
      DistinctCountFullIff(ws);
    }
  }

  /** The score `_calculate_creativity_score` reaches before its final clamp. */
  function CreativityRaw(text: string, tags: seq<string>): real
  {
    30.0 + (PresentCount(CreativeWords, text) * 10 + PresentCount(UniqueWords, text) * 8
            + MemberCount(tags, CreativeTags) * 12) as real
    + RichnessTerm(Split(text))
  }

  /** `_calculate_creativity_score`. */
  method CreativityScore(text: string, tags: seq<string>) returns (r: real)
    ensures r == Clamp(CreativityRaw(text, tags), 0.0, 100.0)
    ensures 30.0 <= r <= 100.0
  {
    var score: real := 30.0;
    var creativeWords := PresentCount(CreativeWords, text);
    score := score + (creativeWords * 10) as real;
    var uniqueCount := PresentCount(UniqueWords, text);
    score := score + (uniqueCount * 8) as real;
    var creativeTagCount := MemberCount(tags, CreativeTags);
    score := score + (creativeTagCount * 12) as real;
    var words := Split(text);
    var uniqueWordCount := DistinctCount(words);
    var totalWordCount := |words|;
    if totalWordCount > 0 {
      var vocabularyRichness := Fraction(uniqueWordCount, totalWordCount);
      score := score + vocabularyRichness * 30.0;
    }
    RichnessBounds(words);
    r := Clamp(score, 0.0, 100.0);
  }

  // ---------------------------------------------------------------- monetization

  /** The ad-placement factor: mid-roll from 30 seconds, pre-roll from 15. */
  function DurationFactor(duration: int): real
  {
    if duration >= 30 then 1.2 else if duration >= 15 then 1.1 else 1.0
  }

  /** `_calculate_monetization_potential`. */
  function Monetization(quality: real, engagement: real, duration: int): (r: real)
    ensures 0.0 <= r <= 100.0
  {
    Clamp((quality * 0.4 + engagement * 0.6) * DurationFactor(duration), 0.0, 100.0)
  }

  /** The factor never falls as the video grows longer. */
  lemma DurationFactorMonotone(d: int, e: int)
    requires d <= e
    ensures DurationFactor(d) <= DurationFactor(e)
  {
  }

  /**
   * For non-negative scores a longer video is never worth less, and below
   * 15 seconds the potential is the 40/60 blend of quality and engagement.
   */
  lemma MonetizationByDuration(quality: real, engagement: real, d: int, e: int)
    requires 0.0 <= quality && 0.0 <= engagement && d <= e
    ensures Monetization(quality, engagement, d) <= Monetization(quality, engagement, e)
    ensures quality <= 100.0 && engagement <= 100.0 && d < 15 ==>
              Monetization(quality, engagement, d) == quality * 0.4 + engagement * 0.6
  {
    var b := quality * 0.4 + engagement * 0.6;
    DurationFactorMonotone(d, e);
    var fd, fe := DurationFactor(d), DurationFactor(e);
    assert b * fd <= b * fe by {
      if fd == 1.0 && fe == 1.1 { assert b * fe == b + b * 0.1; }
      else if fd == 1.0 && fe == 1.2 { assert b * fe == b + b * 0.2; }
      else if fd == 1.1 && fe == 1.2 { assert b * fe == b * fd + b * 0.1; }
    }
    ClampMonotone(b * fd, b * fe, 0.0, 100.0);
  }

  // ---------------------------------------------------------------- confidence

  /** The content fields the local analysis reads; absent fields are empty or 0. */
  datatype ContentData = ContentData(title: string, description: string, tags: seq<string>, duration: int)

  /** 0.5 plus the weight of each field the content carries. */
  function ConfidenceOf(c: ContentData): real
  {
    Min(0.5 + 0.15 * Ind(c.title != []) as real + 0.15 * Ind(c.description != []) as real
        + 0.1 * Ind(c.tags != []) as real + 0.1 * Ind(c.duration > 0) as real, 1.0)
  }

  /** `_calculate_confidence`. */
  method Confidence(c: ContentData) returns (r: real)
    ensures r == ConfidenceOf(c)
    ensures 0.5 <= r <= 1.0
  {
    var confidence := 0.5;
    if c.title != [] {
      confidence := confidence + 0.15;
    }
    if c.description != [] {
      confidence := confidence + 0.15;
    }
    if c.tags != [] {
      confidence := confidence + 0.1;
    }
    if c.duration > 0 {
      confidence := confidence + 0.1;
    }
    r := Min(confidence, 1.0);
  }

  /**
   * The cap at 1.0 never binds: content with every field reaches exactly
   * 1.0, content with none stays at 0.5, and supplying a field never lowers it.
   */
  lemma ConfidenceExtremes(c: ContentData, d: ContentData)
    ensures c.title != [] && c.description != [] && c.tags != [] && c.duration > 0 ==> ConfidenceOf(c) == 1.0
    ensures c.title == [] && c.description == [] && c.tags == [] && c.duration <= 0 ==> ConfidenceOf(c) == 0.5
    ensures (c.title != [] ==> d.title != []) && (c.description != [] ==> d.description != [])
            && (c.tags != [] ==> d.tags != []) && (c.duration > 0 ==> d.duration > 0)
            ==> ConfidenceOf(c) <= ConfidenceOf(d)
  {
  }

  // ---------------------------------------------------------------- recommendations

  datatype Advice =
    | ImproveStructure | EngagingElements | EducationalGuidance | UniqueApproaches
    | OptimizeDuration | TrendingHashtags

  /** The text the source appends for each piece of advice. */
  function AdviceMessage(a: Advice): string
  {
    match a
    case ImproveStructure => "Improve content structure and add more detailed information"
    case EngagingElements => "Add more engaging elements like questions or trending topics"
    case EducationalGuidance => "Include educational elements or step-by-step guidance"
    case UniqueApproaches => "Try unique approaches or original content ideas"
    case OptimizeDuration => "Consider optimizing video duration for maximum engagement"
    case TrendingHashtags => "Use relevant trending hashtags to improve discoverability"
  }

  /** How many of the four weak-score advices apply. */
  function WeakCount(quality: int, engagement: int, educational: int, creativity: real): nat
  {
    Ind(quality < 70) + Ind(engagement < 60) + Ind(educational < 50) + Ind(creativity < 60.0)
  }

  /** The advice appended before the `[:5]` cut. */
  function AllAdvice(quality: int, engagement: int, educational: int, creativity: real): seq<Advice>
  {
    When(quality < 70, ImproveStructure) + When(engagement < 60, EngagingElements)
    + When(educational < 50, EducationalGuidance) + When(creativity < 60.0, UniqueApproaches)
    + [OptimizeDuration] + [TrendingHashtags]
  }

  /** `_generate_recommendations`: the advice in order, cut to its first five. */
  method Recommendations(quality: int, engagement: int, educational: int, creativity: real)
      returns (r: seq<Advice>)
    ensures r == FirstFive(AllAdvice(quality, engagement, educational, creativity))
  {
    r := [];
    r := AppendIf(r, quality < 70, ImproveStructure);
    r := AppendIf(r, engagement < 60, EngagingElements);
    r := AppendIf(r, educational < 50, EducationalGuidance);
    r := AppendIf(r, creativity < 60.0, UniqueApproaches);
    r := r + [OptimizeDuration];
    r := r + [TrendingHashtags];
    r := FirstFive(r);
  }

  /** `xs[:5]`. */
  function FirstFive(xs: seq<Advice>): seq<Advice>
  {
    xs[..MinInt(5, |xs|)]
  }

  /** One `if ...: recommendations.append(...)` step. */
  method AppendIf(r0: seq<Advice>, cond: bool, a: Advice) returns (r: seq<Advice>)
    ensures r == r0 + When(cond, a)
  {
    r := r0;
    if cond {
      r := r + [a];
    }
  }

  /**
   * Between two and five pieces of advice. Unless all four weak-score
   * advices apply the two generic ones close the list; when all four apply
   * the cut drops the hashtag advice.
   */
  lemma RecommendationsShape(quality: int, engagement: int, educational: int, creativity: real)
    ensures var all := AllAdvice(quality, engagement, educational, creativity);
      var r := FirstFive(all);
      var k := WeakCount(quality, engagement, educational, creativity);
      && |r| == MinInt(5, k + 2)
      && 2 <= |r| <= 5
      && (k < 4 ==> r[|r| - 2..] == [OptimizeDuration, TrendingHashtags])
      && (k == 4 ==> r == [ImproveStructure, EngagingElements, EducationalGuidance, UniqueApproaches,
                           OptimizeDuration])
      && (k == 4 <==> TrendingHashtags !in r)
  {
    var all := AllAdvice(quality, engagement, educational, creativity);
    var head := When(quality < 70, ImproveStructure) + When(engagement < 60, EngagingElements)
                + When(educational < 50, EducationalGuidance) + When(creativity < 60.0, UniqueApproaches);
    assert all == head + [OptimizeDuration, TrendingHashtags];
    assert |head| == WeakCount(quality, engagement, educational, creativity);
    assert TrendingHashtags !in head;
    FirstFiveOfAdvice(head);
    if |head| == 4 {
      assert head == [ImproveStructure, EngagingElements, EducationalGuidance, UniqueApproaches];
    }
  }

  /** Cutting up to four conditional items and the two generic ones to five. */
  lemma FirstFiveOfAdvice(head: seq<Advice>)
    requires |head| <= 4 && TrendingHashtags !in head
    ensures var r := FirstFive(head + [OptimizeDuration, TrendingHashtags]);
      && |r| == MinInt(5, |head| + 2)
      && (|head| < 4 ==> r[|r| - 2..] == [OptimizeDuration, TrendingHashtags])
      && (|head| == 4 ==> r == head + [OptimizeDuration])
      && (|head| == 4 <==> TrendingHashtags !in r)
  {
    var all := head + [OptimizeDuration, TrendingHashtags];
    if |head| < 4 {
      assert FirstFive(all) == all;
      assert all[|all| - 2..] == [OptimizeDuration, TrendingHashtags];
    } else {
      assert FirstFive(all) == head + [OptimizeDuration];
    }
  }

  /** Each weak-score advice is given exactly when its score is below its threshold. */
  lemma RecommendationsMembers(quality: int, engagement: int, educational: int, creativity: real)
    ensures var all := AllAdvice(quality, engagement, educational, creativity);
      var r := FirstFive(all);
      && (ImproveStructure in r <==> quality < 70)
      && (EngagingElements in r <==> engagement < 60)
      && (EducationalGuidance in r <==> educational < 50)
      && (UniqueApproaches in r <==> creativity < 60.0)
      && OptimizeDuration in r
  {
    var all := AllAdvice(quality, engagement, educational, creativity);
    var head := When(quality < 70, ImproveStructure) + When(engagement < 60, EngagingElements)
                + When(educational < 50, EducationalGuidance) + When(creativity < 60.0, UniqueApproaches);
    assert all == head + [OptimizeDuration, TrendingHashtags];
    var r := FirstFive(all);
    assert r == head + [OptimizeDuration] || r == head + [OptimizeDuration, TrendingHashtags];
    WhenMember(quality < 70, ImproveStructure, ImproveStructure);
    WhenMember(engagement < 60, EngagingElements, EngagingElements);
    WhenMember(educational < 50, EducationalGuidance, EducationalGuidance);
    WhenMember(creativity < 60.0, UniqueApproaches, UniqueApproaches);
  }

  // ---------------------------------------------------------------- keyword relevance

  /** The sentiment-keyword hits of `words`, summed over the categories in `cats`. */
  function CategoryMatches(cats: seq<seq<string>>, words: seq<string>): nat
  {
    if cats == [] then 0 else CategoryMatches(cats[..|cats| - 1], words) + MemberCount(words, cats[|cats| - 1])
  }

  /** `_calculate_keyword_relevance` as a value. */
  function Relevance(text: string): real
  {
    var words := Split(text);
    if words == [] then 0.0
    else Min(Fraction(CategoryMatches(SentimentCategories, words), |words|) * 100.0, 100.0)
  }

  /** `_calculate_keyword_relevance`: the share of words that are sentiment keywords, as a percentage. */
  method KeywordRelevance(text: string) returns (r: real)
    ensures r == Relevance(text)
    ensures 0.0 <= r <= 100.0
    ensures AllSpaces(text) ==> r == 0.0
  {
    SplitEmptyIff(text);
    var words := Split(text);
    if |words| == 0 {
      return 0.0;
    }
    var relevantCount := CountCategoryMatches(SentimentCategories, words);
    r := Min(Fraction(relevantCount, |words|) * 100.0, 100.0);
  }

  /** The loop of `_calculate_keyword_relevance` over the keyword categories. */
  method CountCategoryMatches(cats: seq<seq<string>>, words: seq<string>) returns (n: nat)
    ensures n == CategoryMatches(cats, words)
  {
    n := 0;
    var i := 0;
    while i < |cats|
      invariant 0 <= i <= |cats|
      invariant n == CategoryMatches(cats[..i], words)
    {
      var category := cats[i];
      assert cats[..i + 1][..i] == cats[..i];
      n := n + MemberCount(words, category);
      i := i + 1;
    }
    assert cats[..i] == cats;
  }

  /** A word never equals a phrase with a space in it. */
  lemma WordIsNotPhrase(w: string)
    requires IsWord(w)
    ensures w != "how to"
  {
    assert |w| <= 3 || w[3] != "how to"[3];
  }

  /**
   * Matching is by whole word: the phrase keyword "how to" contains a
   * space, so no word of any text ever matches it.
   */
  lemma PhraseKeywordNeverMatches(text: string)
    ensures MemberCount(Split(text), ["how to"]) == 0
  {
    var ws := Split(text);
    SplitWords(text);
    forall i | 0 <= i < |ws| ensures ws[i] !in ["how to"] {
      WordIsNotPhrase(ws[i]);
    }
    MemberCountZeroIff(ws, ["how to"]);
  }

  // ---------------------------------------------------------------- title, description, duration

  /** The title points for a non-empty title with the given word count and traits, capped at 100. */
  function TitleScore(wordCount: nat, capital: bool, digit: bool, punctuated: bool): (r: int)
    ensures 50 <= r <= 100
  {
    MinInt(50 + 20 * Ind(5 <= wordCount <= 10) + 10 * Ind(capital) + 10 * Ind(digit) + 10 * Ind(punctuated), 100)
  }

  /** `_assess_title_quality` as a value. */
  function TitleQualityOf(title: string): int
  {
    if title == [] then 0
    else TitleScore(|Split(title)|, IsUpper(title[0]), HasDigit(title), Contains(title, "?") || Contains(title, "!"))
  }

  /** `_assess_title_quality`: 0 for an empty title, otherwise between 50 and 100. */
  method TitleQuality(title: string) returns (r: int)
    ensures r == TitleQualityOf(title)
    ensures title == [] ==> r == 0
    ensures title != [] ==> 50 <= r <= 100
  {
    if title == [] {
      return 0;
    }
    r := TitleScoreSteps(|Split(title)|, IsUpper(title[0]), HasDigit(title), Contains(title, "?") || Contains(title, "!"));
  }

  /** The scoring steps of `_assess_title_quality` once the title's word count and traits are known. */
  method TitleScoreSteps(wordCount: nat, capital: bool, digit: bool, punctuated: bool) returns (r: int)
    ensures r == TitleScore(wordCount, capital, digit, punctuated)
  {
    var score := 50;
    score := AddPoints(score, 5 <= wordCount <= 10, 20);
    score := AddPoints(score, capital, 10);
    score := AddPoints(score, digit, 10);
    score := AddPoints(score, punctuated, 10);
    r := MinInt(score, 100);
  }

  /** A non-empty title scores the full 100 exactly when it meets all four criteria. */
  lemma TitleQualityFull(title: string)
    requires title != []
    ensures TitleQualityOf(title) == 100 <==>
      5 <= |Split(title)| <= 10 && IsUpper(title[0]) && HasDigit(title) && (Contains(title, "?") || Contains(title, "!"))
  {
  }

  /** A lowered title never starts with a capital, so it never earns the capital bonus. */
  lemma LoweredTitleNoCapitalBonus(title: string)
    ensures Lower(title) == [] || !IsUpper(Lower(title)[0])
  {
  }

  function WordCountPoints(wordCount: nat): int
  {
    if 20 <= wordCount <= 100 then 30 else if wordCount > 10 then 20 else 0
  }

  /** The description points for a non-empty description with the given word count and traits, capped at 100. */
  function DescriptionScore(wordCount: nat, period: bool, callToAction: bool): (r: int)
    ensures 40 <= r <= 100
  {
    MinInt(40 + WordCountPoints(wordCount) + 15 * Ind(period) + 15 * Ind(callToAction), 100)
  }

  /** `_assess_description_quality` as a value. */
  function DescriptionQualityOf(description: string): int
  {
    if description == [] then 0
    else DescriptionScore(|Split(description)|, Contains(description, "."), AnyContains(Lower(description), CallToAction))
  }

  /** `_assess_description_quality`: 0 for an empty description, otherwise between 40 and 100. */
  method DescriptionQuality(description: string) returns (r: int)
    ensures r == DescriptionQualityOf(description)
    ensures description == [] ==> r == 0
    ensures description != [] ==> 40 <= r <= 100
  {
    if description == [] {
      return 0;
    }
    var score := 40;
    var wordCount := |Split(description)|;
    score := score + WordCountPoints(wordCount);
    score := AddPoints(score, Contains(description, "."), 15);
    score := AddPoints(score, AnyContains(Lower(description), CallToAction), 15);
    r := MinInt(score, 100);
  }

  /** A description of 20–100 words earns 10 points more than a longer one with the same other traits. */
  lemma DescriptionLengthSweetSpot(a: string, b: string)
    requires a != [] && b != [] && 20 <= |Split(a)| <= 100 && |Split(b)| > 100
    requires Contains(a, ".") == Contains(b, ".")
    requires AnyContains(Lower(a), CallToAction) == AnyContains(Lower(b), CallToAction)
    ensures DescriptionQualityOf(a) == DescriptionQualityOf(b) + 10
  {
  }

  /** `_assess_duration`. */
  function AssessDuration(duration: int): int
  {
    if duration <= 0 then 0
    else if 15 <= duration <= 30 then 100
    else if 30 < duration <= 60 then 85
    else if 60 < duration <= 120 then 70
    else if duration < 15 then 50
    else 30
  }

  /**
   * The duration score as one step function over the whole line, with its
   * peak of 100 exactly on 15–30 seconds.
   */
  lemma DurationSteps(d: int)
    ensures d <= 0 ==> AssessDuration(d) == 0
    ensures 0 < d < 15 ==> AssessDuration(d) == 50
    ensures 15 <= d <= 30 <==> AssessDuration(d) == 100
    ensures 30 < d <= 60 ==> AssessDuration(d) == 85
    ensures 60 < d <= 120 ==> AssessDuration(d) == 70
    ensures 120 < d ==> AssessDuration(d) == 30
    ensures d > 0 ==> AssessDuration(d) >= 30
  {
  }

  // ---------------------------------------------------------------- local analysis

  datatype Breakdown = Breakdown(contentLength: real, keywordRelevance: real, titleQuality: int,
                                 descriptionQuality: int, durationOptimization: int)

  datatype LocalResult = LocalResult(
    quality: int, engagement: int, safety: int, educational: int, creativity: real,
    monetization: real, confidence: real, analysisMethod: string, breakdown: Breakdown,
    recommendations: seq<Advice>)

  /** `f"{title} {description} {' '.join(tags)}"` over the lowered fields. */
  function FullText(c: ContentData): string
  {
    Lower(c.title) + " " + Lower(c.description) + " " + Join(" ", LowerAll(c.tags))
  }

  /** `_analyze_with_local_algorithms`, without the wall-clock processing time. */
  method LocalAnalysis(c: ContentData) returns (res: LocalResult)
    ensures var text, tags := FullText(c), LowerAll(c.tags);
      && res.quality == ClampInt(QualityRaw(text, c.duration), 0, 100)
      && res.engagement == ClampInt(EngagementRaw(text, tags, c.duration), 0, 100)
      && res.safety == ClampInt(SafetyRaw(text), 0, 100)
      && res.educational == ClampInt(EducationalRaw(text, Lower(c.title)), 0, 100)
      && res.creativity == Clamp(CreativityRaw(text, tags), 0.0, 100.0)
      && res.monetization == Monetization(res.quality as real, res.engagement as real, c.duration)
      && res.confidence == ConfidenceOf(c)
      && res.analysisMethod == "Advanced Local Algorithms"
      && res.breakdown.keywordRelevance == Relevance(text)
      && res.breakdown.titleQuality == TitleQualityOf(Lower(c.title))
      && res.breakdown.descriptionQuality == DescriptionQualityOf(Lower(c.description))
      && res.breakdown.durationOptimization == AssessDuration(c.duration)
    ensures res.recommendations == FirstFive(AllAdvice(res.quality, res.engagement, res.educational, res.creativity))
    ensures res.breakdown.contentLength == Min(|FullText(c)| as real / 10.0, 100.0)
  {
    var title := Lower(c.title);
    var description := Lower(c.description);
    var tags := LowerAll(c.tags);
    var fullText := title + " " + description + " " + Join(" ", tags);
    var quality := QualityScore(fullText, c.duration);
    var engagement := EngagementScore(fullText, tags, c.duration);
    var safety := SafetyScore(fullText);
    var educational := EducationalScore(fullText, title);
    var creativity := CreativityScore(fullText, tags);
    var monetization := Monetization(quality as real, engagement as real, c.duration);
    var confidence := Confidence(c);
    var recommendations := Recommendations(quality, engagement, educational, creativity);
    var relevance := KeywordRelevance(fullText);
    var titleQuality := TitleQuality(title);
    var descriptionQuality := DescriptionQuality(description);
    var breakdown := Breakdown(Min(|fullText| as real / 10.0, 100.0), relevance, titleQuality,
                               descriptionQuality, AssessDuration(c.duration));
    res := LocalResult(quality, engagement, safety, educational, creativity, monetization, confidence,
                       "Advanced Local Algorithms", breakdown, recommendations);
  }

  /**
   * In the local analysis the title reaches the title assessment already
   * lowered, so its capital-letter bonus is never given and a non-empty
   * title scores at most 90.
   */
  lemma LocalTitleQualityAtMost90(c: ContentData)
    requires c.title != []
    ensures TitleQualityOf(Lower(c.title)) <= 90
  {
    LoweredTitleNoCapitalBonus(c.title);
  }
}
