/**
 * The configuration rules of the AI service: the `MAX_FILE_SIZE` suffix
 * parser, the quality weights listed in the configuration, and the check of
 * the critical settings.
 */
module Config {
  import opened Base
  import opened Text

  const KB: nat := 1024
  const MB: nat := 1024 * 1024
  const GB: nat := 1024 * 1024 * 1024

  /** The value `MAX_FILE_SIZE` takes when the variable is not set. */
  const DefaultMaxFileSize: string := "100"

  /**
   * `MAX_FILE_SIZE` as the configuration reads it: a case-insensitive `MB`,
   * `GB` or `KB` suffix scales the integer before it, and a string without a
   * suffix counts megabytes.  `None` is the `ValueError` that `int` raises on
   * a prefix that is not an integer, which stops the configuration loading.
   */
  function ParseMaxFileSize(s: string): (r: Option<int>)
  {
    var u := Upper(s);
    if EndsWith(u, "MB") then
      match ParseInt(s[..|s| - 2]) case Some(n) => Some(n * MB) case None => None
    else if EndsWith(u, "GB") then
      match ParseInt(s[..|s| - 2]) case Some(n) => Some(n * GB) case None => None
    else if EndsWith(u, "KB") then
      match ParseInt(s[..|s| - 2]) case Some(n) => Some(n * KB) case None => None
    else
      match ParseInt(s) case Some(n) => Some(n * MB) case None => None
  }

  lemma UpperEndsWith(s: string, a: char, b: char)
    requires |s| >= 2
    ensures EndsWith(Upper(s), [a, b]) <==> UpperChar(s[|s| - 2]) == a && UpperChar(s[|s| - 1]) == b
  {
    var u := Upper(s);
    if UpperChar(s[|s| - 2]) == a && UpperChar(s[|s| - 1]) == b {
      assert u[|u| - 2..] == [a, b];
    }
  }

  /**
   * Writing a size as digits followed by a unit suffix `MB`, `GB` or `KB`, in
   * any letter case, reads back that size in bytes.
   */
  lemma ParseSizeWithSuffix(n: nat, a: char, b: char)
    requires UpperChar(a) in {'M', 'G', 'K'} && UpperChar(b) == 'B'
    ensures ParseMaxFileSize(NatToString(n) + [a, b]) ==
      Some(n * (if UpperChar(a) == 'M' then MB else if UpperChar(a) == 'G' then GB else KB))
  {
    var s := NatToString(n) + [a, b];
    assert s[..|s| - 2] == NatToString(n);
    ParseIntOfNatToString(n);
    assert s[|s| - 2] == a && s[|s| - 1] == b;
    UpperEndsWith(s, 'M', 'B');
    if UpperChar(a) != 'M' {
      UpperEndsWith(s, 'G', 'B');
      if UpperChar(a) != 'G' {
        UpperEndsWith(s, 'K', 'B');
      }
    }
  }

  /** A bare number is a count of megabytes. */
  lemma ParseSizeWithoutSuffix(n: nat)
    ensures ParseMaxFileSize(NatToString(n)) == Some(n * MB)
  {
    var s := NatToString(n);
    ParseIntOfNatToString(n);
    if |s| >= 2 {
      UpperEndsWith(s, 'M', 'B');
      UpperEndsWith(s, 'G', 'B');
      UpperEndsWith(s, 'K', 'B');
    }
  }

  /** With `MAX_FILE_SIZE` unset the limit is 100 MB, 104857600 bytes. */
  lemma DefaultMaxFileSizeValue()
    ensures ParseMaxFileSize(DefaultMaxFileSize) == Some(104857600)
  {
    assert NatToString(100) == "100";
    ParseSizeWithoutSuffix(100);
  }

  /** A size with a decimal point, such as "1.5MB", is rejected. */
  lemma ParseSizeRejectsFraction(s: string, i: int)
    requires 0 <= i < |s| - 2 && s[i] == '.'
    ensures ParseMaxFileSize(s) == None
  {
    var u := Upper(s);
    if EndsWith(u, "MB") || EndsWith(u, "GB") || EndsWith(u, "KB") {
      var body := s[..|s| - 2];
      assert body[i] == '.';
      ParseIntRejectsPoint(body, i);
    } else {
      ParseIntRejectsPoint(s, i);
    }
  }

  /** Underscore separators are read as `int()` reads them: "1_024KB" is 1024 KB. */
  lemma ParseSizeUnderscores()
    ensures ParseMaxFileSize("1_024KB") == Some(1024 * KB)
  {
    var s := "1_024KB";
    assert s[..|s| - 2] == "1_024";
    ParseIntUnderscores();
    UpperEndsWith(s, 'M', 'B');
    UpperEndsWith(s, 'G', 'B');
    UpperEndsWith(s, 'K', 'B');
  }

  /** The five quality dimensions and their weights. */
  datatype Weights = Weights(engagement: real, educational: real, creativity: real,
                             safety: real, production: real)
  {
    function Sum(): real { engagement + educational + creativity + safety + production }
  }

  /** `Config.QUALITY_WEIGHTS`. */
  const QualityWeights: Weights := Weights(0.25, 0.20, 0.20, 0.20, 0.15)

  /** The shipped weights add up to exactly 1. */
  lemma QualityWeightsSumToOne()
    ensures QualityWeights.Sum() == 1.0
  {
  }

  /** The three kinds of configuration error, in the order they are reported. */
  datatype ConfigError = MissingApiKey | InvalidPort(port: int) | BadWeightSum(sum: real)

  /**
   * `validate_config` without its printing: every failed check contributes
   * one error, and the configuration is valid when there is none.
   */
  function ConfigErrors(apiKey: string, port: int, weights: Weights): (errs: seq<ConfigError>)
    ensures |errs| <= 3
  {
    (if apiKey == "" then [MissingApiKey] else [])
    + (if !(1 <= port <= 65535) then [InvalidPort(port)] else [])
    + (if Abs(weights.Sum() - 1.0) > 0.01 then [BadWeightSum(weights.Sum())] else [])
  }

  /** `validate_config`: true exactly when no check fails. */
  function ValidateConfig(apiKey: string, port: int, weights: Weights): bool
  {
    ConfigErrors(apiKey, port, weights) == []
  }

  /** Validation fails exactly when some check fails, and each failed check is reported. */
  lemma ValidateConfigIff(apiKey: string, port: int, weights: Weights)
    ensures ValidateConfig(apiKey, port, weights) <==>
      apiKey != "" && 1 <= port <= 65535 && Abs(weights.Sum() - 1.0) <= 0.01
    ensures |ConfigErrors(apiKey, port, weights)| ==
      Ind(apiKey == "") + Ind(!(1 <= port <= 65535)) + Ind(Abs(weights.Sum() - 1.0) > 0.01)
    ensures apiKey == "" ==> MissingApiKey in ConfigErrors(apiKey, port, weights)
    ensures !(1 <= port <= 65535) ==> InvalidPort(port) in ConfigErrors(apiKey, port, weights)
    ensures Abs(weights.Sum() - 1.0) > 0.01 ==> BadWeightSum(weights.Sum()) in ConfigErrors(apiKey, port, weights)
  {
  }

  /** The shipped weights never trigger the weight error. */
  lemma ShippedWeightsPass(apiKey: string, port: int)
    ensures ValidateConfig(apiKey, port, QualityWeights) <==> apiKey != "" && 1 <= port <= 65535
  {
    ValidateConfigIff(apiKey, port, QualityWeights);
  }
}
