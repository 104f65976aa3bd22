/** Where the two tool sets disagree: their risk tiers and their notions of
    a missing field. */
module RiskDrift {
  import opened Json
  import opened Py
  import opened Triage
  import LegacyTools
  import StrandsTools
  import Strings

  /** The second tool set is never more lenient than the first. */
  lemma StrandsAtLeastAsSevere(amount: real, fraud: real)
    ensures Rank(LegacyTools.AssessRisk(amount, fraud)) <= Rank(StrandsTools.AssessRisk(amount, fraud))
  {
  }

  /** The tiers differ exactly on amounts in (100k, 500k] with a fraud score
      of at most 0.7, and on amounts in (10k, 50k] with a score of at most 0.4. */
  lemma TiersDisagreeIff(amount: real, fraud: real)
    ensures LegacyTools.AssessRisk(amount, fraud) != StrandsTools.AssessRisk(amount, fraud)
      <==> fraud <= 0.7 && ((100000.0 < amount <= 500000.0) || (10000.0 < amount <= 50000.0 && fraud <= 0.4))
  {
  }

  /** Seed scenario 1 ($15,000, score 0.1) is LOW, as its label says, only
      under the first tool set. */
  lemma SeedScenarioOne()
    ensures LegacyTools.AssessRisk(15000.0, 0.1) == Low
    ensures StrandsTools.AssessRisk(15000.0, 0.1) == Medium
  {
  }

  /** Seed scenario 5 ($125,000, score 0.4) is MEDIUM, as its label says,
      only under the first tool set. */
  lemma SeedScenarioFive()
    ensures LegacyTools.AssessRisk(125000.0, 0.4) == Medium
    ensures StrandsTools.AssessRisk(125000.0, 0.4) == High
  {
  }

  /** The validators disagree on a field exactly when its value is falsy but
      neither `None` nor a string (zero, `False`, an empty list or dict), or
      a non-empty string of white space only. */
  lemma ValidatorsDisagreeIff(d: map<string, Json>, f: string)
    requires f in RequiredFields
    ensures (f in LegacyTools.ValidateClaim(d)) != (f in StrandsTools.ValidateClaim(d))
      <==> var v := Get(d, f);
           (!Truthy(v) && !v.JNull? && !v.JStr?) || (v.JStr? && v.s != "" && Strings.IsBlank(v.s))
  {
    StrandsTools.MissingIffNoneOrBlank(d, f);
  }
}
