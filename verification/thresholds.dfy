/**
 * The suspicion decision of the fog node: a window is suspected when its
 * score reaches the configured `inference.suspicious_threshold`.
 */
module Thresholds {
  import opened Base
  import opened Config

  const ThresholdsPath := "fog/config/thresholds.yaml"
  const StructureMessage := "Invalid thresholds.yaml structure"

  /**
   * `load_thresholds`: `file` is what `yaml.safe_load` gives for the
   * thresholds file, or None when the file does not exist. The document is
   * returned unchanged once it is seen to hold `inference` and
   * `inference.suspicious_threshold`.
   */
  function LoadThresholds(file: Option<Node>): (r: Result<Node>)
    ensures file.None? ==> r == Err(FileNotFoundError(ThresholdsPath))
    ensures r.Ok? ==> file == Some(r.value)
    ensures r.Ok? ==> Get(r.value, "inference").Ok?
    ensures r.Ok? ==> HasKey(Get(r.value, "inference").value, "suspicious_threshold") == Ok(true)
  {
    match file
    case None => Err(FileNotFoundError(ThresholdsPath))
    case Some(cfg) =>
      var hasInference :- HasKey(cfg, "inference");
      if !hasInference then Err(ValueError(StructureMessage))
      else
        var inference :- Get(cfg, "inference");
        var hasThreshold :- HasKey(inference, "suspicious_threshold");
        if !hasThreshold then Err(ValueError(StructureMessage)) else Ok(cfg)
  }

  /** A mapping document without `inference`, or whose `inference` mapping lacks the threshold, is a ValueError. */
  lemma MissingStructureRejected(fields: map<string, Node>)
    requires "inference" !in fields
      || (fields["inference"].Section? && "suspicious_threshold" !in fields["inference"].fields)
    ensures LoadThresholds(Some(Section(fields))) == Err(ValueError(StructureMessage))
  {
  }

  /**
   * The threshold `is_suspected` compares against: from the given
   * configuration, else from the file. Python tests the configuration with
   * `is None`, so an absent argument (`None`) and an empty YAML document
   * (`Some(Null)`) both read the file.
   */
  function Threshold(cfg: Option<Node>, file: Option<Node>): (r: Result<real>)
    ensures (cfg.None? || cfg.value.Null?) && LoadThresholds(file).Err? ==> r == Err(LoadThresholds(file).error)
    ensures r.Ok? ==>
      var c := if cfg.Some? && !cfg.value.Null? then cfg.value else file.value;
      && c.Section? && "inference" in c.fields
      && c.fields["inference"].Section? && "suspicious_threshold" in c.fields["inference"].fields
      && AsReal(c.fields["inference"].fields["suspicious_threshold"]) == r
  {
    var c :- if cfg.Some? && !cfg.value.Null? then Ok(cfg.value) else LoadThresholds(file);
    var inference :- Get(c, "inference");
    var t :- Get(inference, "suspicious_threshold");
    AsReal(t)
  }

  /** `is_suspected(score, cfg)`: the score reaches the threshold; a tie counts as suspected. */
  function IsSuspected(score: real, cfg: Option<Node>, file: Option<Node>): (r: Result<bool>)
    ensures r.Ok? <==> Threshold(cfg, file).Ok?
    ensures r.Ok? ==> (r.value <==> score >= Threshold(cfg, file).value)
    ensures r.Err? ==> r.error == Threshold(cfg, file).error
  {
    var t :- Threshold(cfg, file);
    Ok(score >= t)
  }

  /**
   * A document that nests a threshold `float()` reads as t (a YAML float,
   * integer or boolean) decides `score >= t`, whether passed in or read
   * from the file.
   */
  lemma WellFormedConfigDecides(score: real, t: real, cfg: Node, file: Option<Node>)
    requires cfg.Section? && "inference" in cfg.fields
    requires cfg.fields["inference"].Section?
    requires "suspicious_threshold" in cfg.fields["inference"].fields
    requires AsReal(cfg.fields["inference"].fields["suspicious_threshold"]) == Ok(t)
    ensures IsSuspected(score, Some(cfg), file) == Ok(score >= t)
    ensures IsSuspected(score, None, Some(cfg)) == Ok(score >= t)
  {
    assert LoadThresholds(Some(cfg)) == Ok(cfg);
  }

  /** A score equal to the threshold is suspected. */
  lemma TieIsSuspected(cfg: Option<Node>, file: Option<Node>)
    requires Threshold(cfg, file).Ok?
    ensures IsSuspected(Threshold(cfg, file).value, cfg, file) == Ok(true)
  {
  }

  /** Raising the score never withdraws suspicion. */
  lemma SuspicionMonotonic(s1: real, s2: real, cfg: Option<Node>, file: Option<Node>)
    requires s1 <= s2 && IsSuspected(s1, cfg, file) == Ok(true)
    ensures IsSuspected(s2, cfg, file) == Ok(true)
  {
  }

  /** With an explicit configuration that is not None the file is never consulted. */
  lemma ExplicitConfigIgnoresFile(score: real, cfg: Node, f1: Option<Node>, f2: Option<Node>)
    requires !cfg.Null?
    ensures IsSuspected(score, Some(cfg), f1) == IsSuspected(score, Some(cfg), f2)
  {
  }

  /** A configuration that parsed to None decides exactly as no configuration: from the file. */
  lemma NullConfigReadsFile(score: real, file: Option<Node>)
    ensures IsSuspected(score, Some(Null), file) == IsSuspected(score, None, file)
  {
  }

  /** Whether the decision fails depends on the configuration alone, never on the score. */
  lemma FailureIgnoresScore(s1: real, s2: real, cfg: Option<Node>, file: Option<Node>)
    ensures IsSuspected(s1, cfg, file).Err? <==> IsSuspected(s2, cfg, file).Err?
    ensures IsSuspected(s1, cfg, file).Err? ==> IsSuspected(s1, cfg, file) == IsSuspected(s2, cfg, file)
  {
  }
}
