/**
 * The advisory text shown under a prediction (`getAdvice` in src/index.jsx).
 * The label is lower-cased and compared with "low", "medium" and "high";
 * everything else, including an absent label, gets the fallback text.
 */
module Advice {
  import opened Optional

  const LowAdvice: string :=
    "\U{1F7E2} Low Risk: Patient presents a low risk of complications. Continue with routine antenatal monitoring and standard care protocols. No immediate intervention is required beyond regular follow-up."
  const MediumAdvice: string :=
    "\U{1F7E0} Medium Risk: Patient has a moderate risk for complications. Recommend closer observation and schedule more frequent antenatal visits. Consider basic investigations and ensure readiness for timely referral if condition worsens."
  const HighAdvice: string :=
    "\U{26A0}\U{FE0F} High Risk: Patient is at a high risk of complications. Immediate referral to a higher-level facility is advised. Prepare stabilization measures if necessary and ensure prompt transfer for specialized obstetric care."
  const FallbackAdvice: string :=
    "No advice available. Please review patient details and try again."

  /** Lower-cases one ASCII letter; every other character is returned as is. */
  function AsciiLower(c: char): char
  {
    if 'A' <= c <= 'Z' then (c as int - 'A' as int + 'a' as int) as char else c
  }

  /** `toLowerCase` restricted to ASCII: lower-cases each character. */
  function LowerAscii(s: string): (r: string)
    ensures |r| == |s|
    ensures forall i :: 0 <= i < |s| ==> r[i] == AsciiLower(s[i])
  {
    if s == [] then [] else [AsciiLower(s[0])] + LowerAscii(s[1..])
  }

  /** Two labels that differ at most in the case of their ASCII letters. */
  predicate EqualsIgnoringCase(a: string, b: string)
  {
    |a| == |b| && forall i :: 0 <= i < |a| ==> AsciiLower(a[i]) == AsciiLower(b[i])
  }

  /** The switch on `riskLevel?.toLowerCase()`. */
  function GetAdvice(riskLevel: Option<string>): (r: string)
    ensures r == LowAdvice <==> riskLevel.Some? && LowerAscii(riskLevel.value) == "low"
    ensures r == MediumAdvice <==> riskLevel.Some? && LowerAscii(riskLevel.value) == "medium"
    ensures r == HighAdvice <==> riskLevel.Some? && LowerAscii(riskLevel.value) == "high"
    ensures r == FallbackAdvice <==>
      riskLevel.None? || LowerAscii(riskLevel.value) !in {"low", "medium", "high"}
  {
    AdviceTextsDistinct();
    match riskLevel
    case None => FallbackAdvice
    case Some(text) =>
      var key := LowerAscii(text);
      if key == "low" then LowAdvice
      else if key == "medium" then MediumAdvice
      else if key == "high" then HighAdvice
      else FallbackAdvice
  }

  /** The four texts are pairwise distinct, so the advice identifies the tier. */
  lemma AdviceTextsDistinct()
    ensures LowAdvice != MediumAdvice && LowAdvice != HighAdvice && MediumAdvice != HighAdvice
    ensures FallbackAdvice !in {LowAdvice, MediumAdvice, HighAdvice}
  {
    assert |LowAdvice| == 193 && |MediumAdvice| == 228;
    assert |HighAdvice| == 218 && |FallbackAdvice| == 65;
  }

  /**
   * For an already lower-case target, lower-casing a label yields the target
   * exactly when the label equals it up to the case of its letters.
   */
  lemma LowerMatchesIgnoringCase(s: string, target: string)
    requires LowerAscii(target) == target
    ensures LowerAscii(s) == target <==> EqualsIgnoringCase(s, target)
  {
    if EqualsIgnoringCase(s, target) {
      forall i | 0 <= i < |s|
        ensures LowerAscii(s)[i] == target[i]
      {
        assert target[i] == LowerAscii(target)[i] == AsciiLower(target[i]);
      }
    }
    if LowerAscii(s) == target {
      forall i | 0 <= i < |s|
        ensures AsciiLower(s[i]) == AsciiLower(target[i])
      {
        assert target[i] == LowerAscii(target)[i];
      }
    }
  }

  /** `getAdvice` gives the same text to two labels that differ only in case. */
  lemma AdviceIgnoresCase(a: string, b: string)
    requires EqualsIgnoringCase(a, b)
    ensures GetAdvice(Some(a)) == GetAdvice(Some(b))
  {
    assert LowerAscii(a) == LowerAscii(b) by {
      forall i | 0 <= i < |a|
        ensures LowerAscii(a)[i] == LowerAscii(b)[i]
      {
      }
    }
  }

  /**
   * The labels that get each tier's text are exactly the case variants of
   * that tier's name; every other label, and an absent one, gets the fallback.
   */
  lemma AdviceByTier(level: string)
    ensures GetAdvice(Some(level)) == LowAdvice <==> EqualsIgnoringCase(level, "low")
    ensures GetAdvice(Some(level)) == MediumAdvice <==> EqualsIgnoringCase(level, "medium")
    ensures GetAdvice(Some(level)) == HighAdvice <==> EqualsIgnoringCase(level, "high")
    ensures GetAdvice(Some(level)) == FallbackAdvice <==>
      !EqualsIgnoringCase(level, "low") && !EqualsIgnoringCase(level, "medium")
      && !EqualsIgnoringCase(level, "high")
  {
    LowerMatchesIgnoringCase(level, "low");
    LowerMatchesIgnoringCase(level, "medium");
    LowerMatchesIgnoringCase(level, "high");
  }

  /** "Low", "low" and "LOW" all get the low-risk text. */
  lemma LowAdviceCaseVariants()
    ensures GetAdvice(Some("Low")) == GetAdvice(Some("low")) == GetAdvice(Some("LOW")) == LowAdvice
  {
    AdviceByTier("Low");
    AdviceByTier("low");
    AdviceByTier("LOW");
  }

  /** The empty label, an absent label and an unknown label get the fallback text. */
  lemma FallbackExamples()
    ensures GetAdvice(Some("")) == GetAdvice(None) == GetAdvice(Some("unknown")) == FallbackAdvice
  {
    AdviceByTier("");
    AdviceByTier("unknown");
  }
}
