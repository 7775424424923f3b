/**
 * The fraud rule engine: threshold rules over content and user data whose
 * scores add up to a confidence, a risk level and a recommended action.  The
 * detector remembers the content it has seen (exact duplicates) and each
 * user's recent upload times (the hourly upload limit).  The source's random
 * "mock" scores are parameters here.
 */
module Fraud {
  import opened Base
  import opened Text

  const SimilarityThreshold: real := 0.85
  const UploadRateLimit: nat := 10
  /** Uploads older than this many seconds no longer count toward the limit. */
  const UploadWindow: int := 3600
  /** A creation/upload gap above this many seconds (30 days) looks tampered. */
  const MetadataGap: int := 86400 * 30

  // ---------------------------------------------------------------- risk level and action

  /** `_calculate_risk_level`. */
  function RiskLevel(score: real): string
  {
    if score >= 0.8 then "high"
    else if score >= 0.5 then "medium"
    else if score >= 0.3 then "low"
    else "minimal"
  }

  /** The order of the risk levels, lowest first. */
  function Severity(level: string): nat
  {
    if level == "high" then 3 else if level == "medium" then 2 else if level == "low" then 1 else 0
  }

  /** Each level is exactly one band of scores. */
  lemma RiskLevelBands(score: real)
    ensures RiskLevel(score) == "high" <==> score >= 0.8
    ensures RiskLevel(score) == "medium" <==> 0.5 <= score < 0.8
    ensures RiskLevel(score) == "low" <==> 0.3 <= score < 0.5
    ensures RiskLevel(score) == "minimal" <==> score < 0.3
  {
  }

  /** A higher score never gives a lower risk level. */
  lemma RiskLevelMonotone(a: real, b: real)
    requires a <= b
    ensures Severity(RiskLevel(a)) <= Severity(RiskLevel(b))
  {
  }

  /** `_get_recommended_action`: the action table with `manual_review` for any other string. */
  function RecommendedAction(level: string): string
  {
    if level == "high" then "block_content"
    else if level == "medium" then "flag_for_review"
    else if level == "low" then "monitor"
    else if level == "minimal" then "allow"
    else "manual_review"
  }

  lemma ActionTable(level: string)
    ensures level == "high" <==> RecommendedAction(level) == "block_content"
    ensures level == "medium" <==> RecommendedAction(level) == "flag_for_review"
    ensures level == "low" <==> RecommendedAction(level) == "monitor"
    ensures level == "minimal" <==> RecommendedAction(level) == "allow"
    ensures level !in {"high", "medium", "low", "minimal"} <==> RecommendedAction(level) == "manual_review"
  {
  }

  // ---------------------------------------------------------------- reports

  /** The kinds of indicator the two detectors report. */
  datatype Kind =
    | DuplicateContent | UndisclosedAiContent | CopyrightInfringement | MetadataManipulation
    | UploadRateAbuse | BotBehavior | FakeEngagement | FakeAccount

  /** The `type` string the source reports for each kind. */
  function KindName(k: Kind): string
  {
    match k
    case DuplicateContent => "duplicate_content"
    case UndisclosedAiContent => "undisclosed_ai_content"
    case CopyrightInfringement => "copyright_infringement"
    case MetadataManipulation => "metadata_manipulation"
    case UploadRateAbuse => "upload_rate_abuse"
    case BotBehavior => "bot_behavior"
    case FakeEngagement => "fake_engagement"
    case FakeAccount => "fake_account"
  }

  /** One entry of `fraud_indicators`: its type and score; its description follows from the type. */
  datatype Indicator = Indicator(kind: Kind, score: real)
  {
    /** The `description` entry the detector reports with the indicator, fixed by its kind. */
    function Description(): string
    {
      match kind
      case DuplicateContent => "Content appears to be duplicated or plagiarized"
      case UndisclosedAiContent => "Content appears to be AI-generated without proper disclosure"
      case CopyrightInfringement => "Content may infringe on existing copyrights"
      case MetadataManipulation => "Content metadata appears to be manipulated"
      case UploadRateAbuse => "Unusually high upload rate detected"
      case BotBehavior => "User behavior patterns suggest automated activity"
      case FakeEngagement => "Suspicious engagement patterns detected"
      case FakeAccount => "Account appears to be fake or compromised"
    }
  }

  datatype FraudReport = FraudReport(isFraudulent: bool, confidenceScore: real, riskLevel: string,
                                     indicators: seq<Indicator>, recommendedAction: string)

  /** What each kind of indicator adds to the confidence when it fires. */
  function KindWeight(kind: Kind): real
  {
    match kind
    case DuplicateContent => 0.4
    case UndisclosedAiContent => 0.3
    case CopyrightInfringement => 0.5
    case MetadataManipulation => 0.2
    case UploadRateAbuse => 0.3
    case BotBehavior => 0.4
    case FakeEngagement => 0.3
    case FakeAccount => 0.4
  }

  /** The sum of the weights of the indicators that fired. */
  function TotalWeight(inds: seq<Indicator>): real
  {
    if inds == [] then 0.0 else TotalWeight(inds[..|inds| - 1]) + KindWeight(inds[|inds| - 1].kind)
  }

  function Kinds(inds: seq<Indicator>): seq<Kind>
  {
    if inds == [] then [] else [inds[0].kind] + Kinds(inds[1..])
  }

  /**
   * The report both detectors return for an accumulated `raw` confidence:
   * the reported confidence is capped at 1, while the fraud verdict and the
   * risk level read the uncapped sum.
   */
  function Conclude(raw: real, inds: seq<Indicator>): FraudReport
  {
    var level := RiskLevel(raw);
    FraudReport(raw > 0.5, Min(raw, 1.0), level, inds, RecommendedAction(level))
  }

  /** A fraudulent verdict always comes with a medium or high risk level, and a high level is always fraudulent. */
  lemma ConcludeConsistent(raw: real, inds: seq<Indicator>)
    ensures Conclude(raw, inds).confidenceScore <= 1.0
    ensures raw <= 1.0 ==> Conclude(raw, inds).confidenceScore == raw
    ensures Conclude(raw, inds).isFraudulent ==> Conclude(raw, inds).riskLevel in {"medium", "high"}
    ensures Conclude(raw, inds).riskLevel == "high" ==> Conclude(raw, inds).isFraudulent
    ensures Conclude(raw, inds).riskLevel == RiskLevel(Conclude(raw, inds).confidenceScore)
  {
  }

  /** The uncapped sum can exceed 1 (all four content rules together give 1.4). */
  lemma ConfidenceCapped()
    ensures Conclude(1.4, []).confidenceScore == 1.0 && Conclude(1.4, []).riskLevel == "high"
  {
  }

  // ---------------------------------------------------------------- content rules

  /** The content fields the rules read; absent fields are `""`, `[]`, `None`, `0` or `false`. */
  datatype ContentData = ContentData(
    title: string, description: string, tags: seq<string>,
    creationTime: Option<int>, uploadTime: Option<int>, editCount: int,
    hasMusic: bool, hasLogos: bool, hasWatermarks: bool)

  /** The random scores the content rules draw. */
  datatype ContentMocks = ContentMocks(similarity: real, aiProbability: real,
                                       musicCopyright: real, visualCopyright: real)

  /** The identity of a piece of content: its title followed by its description (before hashing). */
  function ContentKey(title: string, description: string): string { title + description }

  const AiIndicators: seq<string> := ["generated", "artificial", "synthetic", "ai-created",
                                      "machine-generated", "automated", "algorithmic"]

  /** Whether the lowered description, title and tags mention any AI-disclosure word. */
  predicate HasAiDisclosure(c: ContentData)
  {
    AnyContains(Lower(c.description) + Lower(c.title) + Join(" ", LowerAll(c.tags)), AiIndicators)
  }

  /** `_detect_undisclosed_ai_content` given the drawn probability. */
  function UndisclosedAiScore(c: ContentData, probability: real): (r: real)
    ensures r > 0.7 <==> probability > 0.7 && !HasAiDisclosure(c)
  {
    if probability > 0.7 && !HasAiDisclosure(c) then probability else 0.0
  }

  /** `_check_copyright_infringement` given the two drawn scores. */
  function CopyrightScore(c: ContentData, music: real, visual: real): real
  {
    Max(if c.hasMusic then music else 0.0, if c.hasLogos || c.hasWatermarks then visual else 0.0)
  }

  /** Python truthiness of an optional timestamp. */
  predicate Truthy(t: Option<int>) { t.Some? && t.value != 0 }

  /** `_check_metadata_manipulation`: the timestamp rule first, then the edit-count rule. */
  function MetadataScore(creation: Option<int>, upload: Option<int>, editCount: int): real
  {
    if Truthy(creation) && Truthy(upload) && AbsInt(upload.value - creation.value) > MetadataGap then 0.6
    else if editCount > 50 then 0.4
    else 0.0
  }

  lemma MetadataRules(creation: Option<int>, upload: Option<int>, editCount: int)
    ensures MetadataScore(creation, upload, editCount) == 0.6 <==>
      Truthy(creation) && Truthy(upload) && AbsInt(upload.value - creation.value) > MetadataGap
    ensures MetadataScore(creation, upload, editCount) == 0.4 <==>
      !(Truthy(creation) && Truthy(upload) && AbsInt(upload.value - creation.value) > MetadataGap) && editCount > 50
    ensures MetadataScore(creation, upload, editCount) in {0.0, 0.4, 0.6}
  {
  }

  /** The score `_check_duplicate_content` returns against the set of seen content. */
  function DuplicateScore(seen: set<string>, key: string, similarity: real): real
  {
    if key in seen then 1.0 else similarity
  }

  /** The indicator `i` when its rule fired, nothing otherwise. */
  function Fire(fired: bool, i: Indicator): seq<Indicator>
  {
    if fired then [i] else []
  }

  /** The indicators `detect_content_fraud` reports for the four rule scores, in its order. */
  function ContentIndicators(dup: real, ai: real, copyright: real, meta: real): seq<Indicator>
  {
    Fire(dup > SimilarityThreshold, Indicator(DuplicateContent, dup))
    + Fire(ai > 0.7, Indicator(UndisclosedAiContent, ai))
    + Fire(copyright > 0.6, Indicator(CopyrightInfringement, copyright))
    + Fire(meta > 0.5, Indicator(MetadataManipulation, meta))
  }

  /** The metadata indicator fires only on the timestamp rule: the edit-count score 0.4 is below the 0.5 threshold. */
  lemma MetadataIndicatorIff(dup: real, ai: real, copyright: real, c: ContentData)
    ensures MetadataManipulation in Kinds(ContentIndicators(dup, ai, copyright, MetadataScore(c.creationTime, c.uploadTime, c.editCount)))
      <==> Truthy(c.creationTime) && Truthy(c.uploadTime) && AbsInt(c.uploadTime.value - c.creationTime.value) > MetadataGap
  {
    var meta := MetadataScore(c.creationTime, c.uploadTime, c.editCount);
    KindsOfContentIndicators(dup, ai, copyright, meta);
  }

  lemma KindsOfContentIndicators(dup: real, ai: real, copyright: real, meta: real)
    ensures Kinds(ContentIndicators(dup, ai, copyright, meta)) ==
      (if dup > SimilarityThreshold then [DuplicateContent] else [])
      + (if ai > 0.7 then [UndisclosedAiContent] else [])
      + (if copyright > 0.6 then [CopyrightInfringement] else [])
      + (if meta > 0.5 then [MetadataManipulation] else [])
  {
    var a := Fire(dup > SimilarityThreshold, Indicator(DuplicateContent, dup));
    var b := Fire(ai > 0.7, Indicator(UndisclosedAiContent, ai));
    var c := Fire(copyright > 0.6, Indicator(CopyrightInfringement, copyright));
    var d := Fire(meta > 0.5, Indicator(MetadataManipulation, meta));
    KindsAppend(a, b);
    KindsAppend(a + b, c);
    KindsAppend(a + b + c, d);
    KindsFire(dup > SimilarityThreshold, Indicator(DuplicateContent, dup));
    KindsFire(ai > 0.7, Indicator(UndisclosedAiContent, ai));
    KindsFire(copyright > 0.6, Indicator(CopyrightInfringement, copyright));
    KindsFire(meta > 0.5, Indicator(MetadataManipulation, meta));
  }

  lemma {:induction false} KindsAppend(a: seq<Indicator>, b: seq<Indicator>)
    ensures Kinds(a + b) == Kinds(a) + Kinds(b)
  {
    if a == [] {
      assert a + b == b;
    } else {
      assert (a + b)[0] == a[0];
      assert (a + b)[1..] == a[1..] + b;
      KindsAppend(a[1..], b);
      calc {
        Kinds(a + b);
        [a[0].kind] + Kinds(a[1..] + b);
        [a[0].kind] + (Kinds(a[1..]) + Kinds(b));
        ([a[0].kind] + Kinds(a[1..])) + Kinds(b);
      }
    }
  }

  /** Content seen before is always reported as a duplicate with score 1. */
  lemma RepeatIsDuplicate(seen: set<string>, c: ContentData, m: ContentMocks, ai: real, copyright: real, meta: real)
    requires ContentKey(c.title, c.description) in seen
    ensures ContentIndicators(DuplicateScore(seen, ContentKey(c.title, c.description), m.similarity), ai, copyright, meta)[0]
      == Indicator(DuplicateContent, 1.0)
  {
  }

  /**
   * With the source's random ranges (similarity below 0.3, AI probability below
   * 0.4, music and visual copyright scores below 0.3 and 0.5), new content can
   * only ever be flagged for its metadata.
   */
  lemma MockRangesOnlyMetadata(seen: set<string>, c: ContentData, m: ContentMocks)
    requires ContentKey(c.title, c.description) !in seen
    requires 0.0 <= m.similarity < 0.3 && 0.1 <= m.aiProbability < 0.4
    requires 0.0 <= m.musicCopyright < 0.3 && 0.2 <= m.visualCopyright < 0.5
    ensures var meta := MetadataScore(c.creationTime, c.uploadTime, c.editCount);
      Kinds(ContentIndicators(DuplicateScore(seen, ContentKey(c.title, c.description), m.similarity),
                              UndisclosedAiScore(c, m.aiProbability),
                              CopyrightScore(c, m.musicCopyright, m.visualCopyright), meta))
      == (if meta > 0.5 then [MetadataManipulation] else [])
  {
    var meta := MetadataScore(c.creationTime, c.uploadTime, c.editCount);
    KindsOfContentIndicators(DuplicateScore(seen, ContentKey(c.title, c.description), m.similarity),
                             UndisclosedAiScore(c, m.aiProbability),
                             CopyrightScore(c, m.musicCopyright, m.visualCopyright), meta);
  }

  // ---------------------------------------------------------------- user rules

  /** What the detector remembers about one user. */
  datatype UserPattern = UserPattern(uploads: seq<int>, lastQualityScores: seq<real>)

  /** The user fields the rules read; absent fields are `0` or `false`. */
  datatype UserData = UserData(
    totalViews: real, totalLikes: real, totalComments: real,
    avatar: bool, bio: bool, verifiedEmail: bool, socialLinks: bool,
    accountAgeDays: real)

  /** `[t for t in uploads if now - t < 3600]`. */
  function KeepRecent(uploads: seq<int>, now: int): (r: seq<int>)
    ensures |r| <= |uploads|
  {
    if uploads == [] then []
    else (if now - uploads[0] < UploadWindow then [uploads[0]] else []) + KeepRecent(uploads[1..], now)
  }

  /** The filter keeps exactly the uploads of the last hour, in their order. */
  lemma {:induction false} KeepRecentExact(uploads: seq<int>, now: int)
    ensures forall t :: t in KeepRecent(uploads, now) <==> t in uploads && now - t < UploadWindow
    ensures multiset(KeepRecent(uploads, now)) <= multiset(uploads)
  {
    if uploads != [] {
      KeepRecentExact(uploads[1..], now);
      assert uploads == [uploads[0]] + uploads[1..];
    }
  }

  /** The user's uploads after the current one is recorded. */
  function RecordedUploads(patterns: map<string, UserPattern>, userId: string, now: int): seq<int>
  {
    var old_ := if userId in patterns then patterns[userId].uploads else [];
    KeepRecent(old_, now) + [now]
  }

  /** `_check_upload_rate_abuse`'s result. */
  function UploadAbuseScore(patterns: map<string, UserPattern>, userId: string, now: int): real
  {
    if |RecordedUploads(patterns, userId, now)| > UploadRateLimit then 0.8 else 0.0
  }

  /**
   * The stored patterns after the check.  A known user's pattern is the
   * dictionary entry itself, so it is updated even when the check returns
   * early; a new user's pattern is stored only on the normal path.
   */
  function PatternsAfterUpload(patterns: map<string, UserPattern>, userId: string, now: int): map<string, UserPattern>
  {
    var p := if userId in patterns then patterns[userId] else UserPattern([], []);
    var p' := p.(uploads := RecordedUploads(patterns, userId, now));
    if userId in patterns || |p'.uploads| <= UploadRateLimit then patterns[userId := p'] else patterns
  }

  /** The limiter fires exactly when more than 10 uploads, this one included, fall in the last hour. */
  lemma UploadLimiter(patterns: map<string, UserPattern>, userId: string, now: int)
    ensures UploadAbuseScore(patterns, userId, now) == 0.8 <==> |RecordedUploads(patterns, userId, now)| > UploadRateLimit
    ensures UploadAbuseScore(patterns, userId, now) == 0.0 <==> |RecordedUploads(patterns, userId, now)| <= UploadRateLimit
    ensures userId in PatternsAfterUpload(patterns, userId, now)
    ensures PatternsAfterUpload(patterns, userId, now)[userId].uploads == RecordedUploads(patterns, userId, now)
    ensures userId !in patterns ==> RecordedUploads(patterns, userId, now) == [now]
    ensures forall u | u in patterns && u != userId :: PatternsAfterUpload(patterns, userId, now)[u] == patterns[u]
  {
  }

  /** A silent hour resets the limiter: with every earlier upload over an hour old, only the current one counts. */
  lemma {:induction false} QuietHourResets(uploads: seq<int>, now: int)
    requires forall i | 0 <= i < |uploads| :: now - uploads[i] >= UploadWindow
    ensures KeepRecent(uploads, now) == []
  {
    if uploads != [] {
      QuietHourResets(uploads[1..], now);
    }
  }

  /** `_detect_fake_engagement`. */
  function FakeEngagementScore(views: real, likes: real, comments: real): (r: real)
    ensures r == 0.7 <==> views > 0.0 && (likes / views > 0.5 || comments / views > 0.1)
    ensures r == 0.0 <==> !(views > 0.0 && (likes / views > 0.5 || comments / views > 0.1))
  {
    if views > 0.0 && (likes / views > 0.5 || comments / views > 0.1) then 0.7 else 0.0
  }

  /** The fake-engagement indicator (threshold 0.6) fires exactly on the ratio rule, since the rule's score is 0.7. */
  lemma FakeEngagementFiresOnRatio(views: real, likes: real, comments: real)
    ensures FakeEngagementScore(views, likes, comments) > 0.6 <==>
      views > 0.0 && (likes / views > 0.5 || comments / views > 0.1)
    ensures views <= 0.0 ==> FakeEngagementScore(views, likes, comments) == 0.0
  {
  }

  /** The profile-completeness part of `_check_account_authenticity`. */
  function Completeness(u: UserData): real
  {
    (if u.avatar then 0.2 else 0.0) + (if u.bio then 0.2 else 0.0)
    + (if u.verifiedEmail then 0.3 else 0.0) + (if u.socialLinks then 0.3 else 0.0)
  }

  /** `_check_account_authenticity`: profile completeness averaged with account age (full after 30 days). */
  function AuthenticityScore(u: UserData): (r: real)
    ensures r <= 1.0
    ensures u.accountAgeDays >= 0.0 ==> 0.0 <= r
    ensures u.accountAgeDays >= 30.0 ==> r == (Completeness(u) + 1.0) / 2.0
  {
    (Completeness(u) + Min(u.accountAgeDays / 30.0, 1.0)) / 2.0
  }

  /** A complete profile at least a month old scores exactly 1; an empty profile on a new account scores 0. */
  lemma AuthenticityExtremes(u: UserData)
    ensures u.avatar && u.bio && u.verifiedEmail && u.socialLinks && u.accountAgeDays >= 30.0 ==> AuthenticityScore(u) == 1.0
    ensures !u.avatar && !u.bio && !u.verifiedEmail && !u.socialLinks && u.accountAgeDays == 0.0 ==> AuthenticityScore(u) == 0.0
  {
  }

  /** The indicators `detect_user_fraud` reports for its four scores, in its order. */
  function UserIndicators(upload: real, bot: real, engagement: real, authenticity: real): seq<Indicator>
  {
    Fire(upload > 0.7, Indicator(UploadRateAbuse, upload))
    + Fire(bot > 0.8, Indicator(BotBehavior, bot))
    + Fire(engagement > 0.6, Indicator(FakeEngagement, engagement))
    + Fire(authenticity < 0.4, Indicator(FakeAccount, 1.0 - authenticity))
  }

  /**
   * `_detect_bot_behavior` only ever returns 0.0, 0.7 or 0.8, and the
   * threshold is strictly above 0.8, so the bot indicator never fires.
   */
  lemma BotIndicatorNeverFires(upload: real, bot: real, engagement: real, authenticity: real)
    requires bot in {0.0, 0.7, 0.8}
    ensures BotBehavior !in Kinds(UserIndicators(upload, bot, engagement, authenticity))
  {
    var a := Fire(upload > 0.7, Indicator(UploadRateAbuse, upload));
    var b := Fire(bot > 0.8, Indicator(BotBehavior, bot));
    var c := Fire(engagement > 0.6, Indicator(FakeEngagement, engagement));
    var d := Fire(authenticity < 0.4, Indicator(FakeAccount, 1.0 - authenticity));
    assert b == [];
    KindsAppend(a, b);
    KindsAppend(a + b, c);
    KindsAppend(a + b + c, d);
    KindsFire(upload > 0.7, Indicator(UploadRateAbuse, upload));
    KindsFire(engagement > 0.6, Indicator(FakeEngagement, engagement));
    KindsFire(authenticity < 0.4, Indicator(FakeAccount, 1.0 - authenticity));
    assert Kinds(a + b + c + d) == Kinds(a) + Kinds(b) + Kinds(c) + Kinds(d);
  }

  /** A check that fires contributes its kind, one that does not contributes nothing. */
  lemma KindsFire(fired: bool, i: Indicator)
    ensures Kinds(Fire(fired, i)) == if fired then [i.kind] else []
  {
  }

  /** The total weight of an appended indicator. */
  lemma TotalWeightAppend(inds: seq<Indicator>, i: Indicator)
    ensures TotalWeight(inds + [i]) == TotalWeight(inds) + KindWeight(i.kind)
  {
    assert (inds + [i])[..|inds|] == inds;
  }

  class FraudDetector {
    var contentHashes: set<string>
    var userBehaviorPatterns: map<string, UserPattern>

    constructor ()
      ensures contentHashes == {} && userBehaviorPatterns == map[]
    {
      contentHashes := {};
      userBehaviorPatterns := map[];
    }

    /** `_check_duplicate_content`: remembers new content, and scores a repeat 1.0. */
    method CheckDuplicateContent(title: string, description: string, similarity: real) returns (score: real)
      modifies this
      ensures score == DuplicateScore(old(contentHashes), ContentKey(title, description), similarity)
      ensures contentHashes == old(contentHashes) + {ContentKey(title, description)}
      ensures ContentKey(title, description) in old(contentHashes) ==> contentHashes == old(contentHashes)
      ensures userBehaviorPatterns == old(userBehaviorPatterns)
    {
      var key := title + description;
      if key in contentHashes {
        return 1.0;
      }
      score := similarity;
      contentHashes := contentHashes + {key};
    }

    /** `_check_upload_rate_abuse` at time `now`. */
    method CheckUploadRateAbuse(userId: string, now: int) returns (score: real)
      modifies this
      ensures score == UploadAbuseScore(old(userBehaviorPatterns), userId, now)
      ensures userBehaviorPatterns == PatternsAfterUpload(old(userBehaviorPatterns), userId, now)
      ensures contentHashes == old(contentHashes)
    {
      var pattern := if userId in userBehaviorPatterns then userBehaviorPatterns[userId] else UserPattern([], []);
      var recent: seq<int> := [];
      var i := 0;
      while i < |pattern.uploads|
        invariant 0 <= i <= |pattern.uploads|
        invariant recent == KeepRecent(pattern.uploads[..i], now)
        invariant userBehaviorPatterns == old(userBehaviorPatterns) && contentHashes == old(contentHashes)
      {
        KeepRecentSnoc(pattern.uploads[..i], pattern.uploads[i], now);
        assert pattern.uploads[..i + 1] == pattern.uploads[..i] + [pattern.uploads[i]];
        if now - pattern.uploads[i] < UploadWindow {
          recent := recent + [pattern.uploads[i]];
        }
        i := i + 1;
      }
      assert pattern.uploads[..i] == pattern.uploads;
      pattern := pattern.(uploads := recent + [now]);
      if userId in userBehaviorPatterns {
        // the pattern is the stored dictionary itself: the update is visible at once
        userBehaviorPatterns := userBehaviorPatterns[userId := pattern];
      }
      if |pattern.uploads| > UploadRateLimit {
        return 0.8;
      }
      userBehaviorPatterns := userBehaviorPatterns[userId := pattern];
      score := 0.0;
    }

    /** `detect_content_fraud`: each rule that fires adds its indicator and its weight. */
    method DetectContentFraud(c: ContentData, m: ContentMocks) returns (r: FraudReport)
      modifies this
      ensures var dup := DuplicateScore(old(contentHashes), ContentKey(c.title, c.description), m.similarity);
        r.indicators == ContentIndicators(dup, UndisclosedAiScore(c, m.aiProbability),
          CopyrightScore(c, m.musicCopyright, m.visualCopyright),
          MetadataScore(c.creationTime, c.uploadTime, c.editCount))
      ensures r == Conclude(TotalWeight(r.indicators), r.indicators)
      ensures contentHashes == old(contentHashes) + {ContentKey(c.title, c.description)}
      ensures userBehaviorPatterns == old(userBehaviorPatterns)
    {
      var indicators: seq<Indicator> := [];
      var confidence := 0.0;
      var dup := CheckDuplicateContent(c.title, c.description, m.similarity);
      indicators, confidence := AddIndicator(indicators, confidence, dup > SimilarityThreshold, Indicator(DuplicateContent, dup));
      var ai := UndisclosedAiScore(c, m.aiProbability);
      indicators, confidence := AddIndicator(indicators, confidence, ai > 0.7, Indicator(UndisclosedAiContent, ai));
      var copyright := CopyrightScore(c, m.musicCopyright, m.visualCopyright);
      indicators, confidence := AddIndicator(indicators, confidence, copyright > 0.6, Indicator(CopyrightInfringement, copyright));
      var meta := MetadataScore(c.creationTime, c.uploadTime, c.editCount);
      indicators, confidence := AddIndicator(indicators, confidence, meta > 0.5, Indicator(MetadataManipulation, meta));
      var level := RiskLevel(confidence);
      r := FraudReport(confidence > 0.5, Min(confidence, 1.0), level, indicators, RecommendedAction(level));
    }

    /** `detect_user_fraud` at time `now`, with the bot-behaviour score as a parameter. */
    method DetectUserFraud(userId: string, u: UserData, botScore: real, now: int) returns (r: FraudReport)
      modifies this
      ensures r.indicators == UserIndicators(UploadAbuseScore(old(userBehaviorPatterns), userId, now), botScore,
        FakeEngagementScore(u.totalViews, u.totalLikes, u.totalComments), AuthenticityScore(u))
      ensures r == Conclude(TotalWeight(r.indicators), r.indicators)
      ensures userBehaviorPatterns == PatternsAfterUpload(old(userBehaviorPatterns), userId, now)
      ensures contentHashes == old(contentHashes)
    {
      var indicators: seq<Indicator> := [];
      var confidence := 0.0;
      var upload := CheckUploadRateAbuse(userId, now);
      indicators, confidence := AddIndicator(indicators, confidence, upload > 0.7, Indicator(UploadRateAbuse, upload));
      indicators, confidence := AddIndicator(indicators, confidence, botScore > 0.8, Indicator(BotBehavior, botScore));
      var engagement := FakeEngagementScore(u.totalViews, u.totalLikes, u.totalComments);
      indicators, confidence := AddIndicator(indicators, confidence, engagement > 0.6, Indicator(FakeEngagement, engagement));
      var authenticity := AuthenticityScore(u);
      indicators, confidence := AddIndicator(indicators, confidence, authenticity < 0.4, Indicator(FakeAccount, 1.0 - authenticity));
      var level := RiskLevel(confidence);
      r := FraudReport(confidence > 0.5, Min(confidence, 1.0), level, indicators, RecommendedAction(level));
    }
  }

  /** One rule of a detector: when it fired, its indicator is reported and its weight added. */
  method AddIndicator(inds: seq<Indicator>, confidence: real, fired: bool, ind: Indicator)
    returns (inds': seq<Indicator>, confidence': real)
    requires confidence == TotalWeight(inds)
    ensures inds' == inds + Fire(fired, ind)
    ensures confidence' == TotalWeight(inds')
    ensures fired ==> confidence' == confidence + KindWeight(ind.kind)
    ensures !fired ==> confidence' == confidence
  {
    if fired {
      TotalWeightAppend(inds, ind);
      inds', confidence' := inds + [ind], confidence + KindWeight(ind.kind);
    } else {
      inds', confidence' := inds, confidence;
    }
  }

  lemma KeepRecentSnoc(uploads: seq<int>, t: int, now: int)
    ensures KeepRecent(uploads + [t], now) == KeepRecent(uploads, now) + (if now - t < UploadWindow then [t] else [])
    decreases |uploads|
  {
    if uploads != [] {
      assert (uploads + [t])[1..] == uploads[1..] + [t];
      KeepRecentSnoc(uploads[1..], t, now);
    }
  }
}
