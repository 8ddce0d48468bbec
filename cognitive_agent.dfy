/** The "cognitive agent": a prompt describing the farm state is built and a
    stub decision rule searches it for the detection marker. */
module CognitiveAgent {

  const IncreaseRisk: string := "INCREASE RISK"
  const MaintainBaselineRisk: string := "MAINTAIN BASELINE RISK"
  const DetectionMarker: string := "Attack detected: True"

  /** Python's `pattern in text` on strings. */
  predicate Contains(text: string, pattern: string)
  {
    exists i :: 0 <= i <= |text| && pattern <= text[i..]
  }

  /** `_get_agent_decision`. */
  function AgentDecision(prompt: string): (d: string)
    ensures d == IncreaseRisk <==> Contains(prompt, DetectionMarker)
    ensures d == IncreaseRisk || d == MaintainBaselineRisk
  {
    if Contains(prompt, DetectionMarker) then IncreaseRisk else MaintainBaselineRisk
  }

  /** Python's `str(b)` for a bool. */
  function BoolText(b: bool): string
  {
    if b then "True" else "False"
  }

  /** What `{power:,.0f}` and `{stress:.2f}` can produce: digits, the
      separators `,` `.` `-`, and the letters of `nan` and `inf`. */
  predicate NumericText(s: string)
  {
    forall i :: 0 <= i < |s| ==> s[i] in "0123456789,.-nanif"
  }

  /** The prompt of `get_risk_parameter`; `powerText` and `stressText` are
      the formatted power and stress proxy. */
  function Prompt(detection: bool, powerText: string, stressText: string): string
  {
    Header() + DetectionLine(detection) + PowerLine(powerText) + StressLine(stressText)
  }

  function Header(): string
  {
    "Analyze the " + "following " + "wind farm " + "state and " + "determine the "
    + "appropriate " + "risk level.\n" + "System State:\n"
  }

  function DetectionLine(detection: bool): string
  {
    "- Attack detected: " + BoolText(detection) + "\n"
  }

  function PowerLine(powerText: string): string
  {
    "- Current Power: " + powerText + " W\n"
  }

  function StressLine(stressText: string): string
  {
    "- Current Stress Proxy: " + stressText + "\n"
  }

  /** The marker occurs in the prompt exactly when detection holds: the
      marker's capital `T` appears nowhere else in the prompt. */
  lemma PromptSignalsDetection(detection: bool, powerText: string, stressText: string)
    requires NumericText(powerText) && NumericText(stressText)
    ensures Contains(Prompt(detection, powerText, stressText), DetectionMarker) <==> detection
  {
    var p := Prompt(detection, powerText, stressText);
    if detection {
      MarkerInPrompt(powerText, stressText);
    } else {
      NoCapitalT(powerText, stressText);
      forall i | 0 <= i <= |p| ensures !(DetectionMarker <= p[i..]) {
        assert 'T' == DetectionMarker[17];
        assert 'T' !in p[i..];
      }
    }
  }

  /** With detection set, the marker starts two characters into the
      prompt's detection line. */
  lemma MarkerInPrompt(powerText: string, stressText: string)
    ensures Contains(Prompt(true, powerText, stressText), DetectionMarker)
  {
    assert DetectionLine(true) == "- " + DetectionMarker + "\n";
    var rest := "\n" + PowerLine(powerText) + StressLine(stressText);
    assert Prompt(true, powerText, stressText) == (Header() + "- ") + DetectionMarker + rest;
    ContainsMiddle(Header() + "- ", DetectionMarker, rest);
  }

  lemma ContainsMiddle(front: string, middle: string, rest: string)
    ensures Contains(front + middle + rest, middle)
  {
    var t := front + middle + rest;
    assert t[|front|..] == middle + rest;
    assert middle <= t[|front|..];
  }

  /** Without detection, no line of the prompt holds a capital `T`. */
  lemma NoCapitalT(powerText: string, stressText: string)
    requires NumericText(powerText) && NumericText(stressText)
    ensures 'T' !in Prompt(false, powerText, stressText)
  {
    HeaderHasNoT();
    assert 'T' !in DetectionLine(false);
    assert 'T' !in PowerLine(powerText);
    assert 'T' !in StressLine(stressText);
  }

  lemma HeaderHasNoT()
    ensures 'T' !in Header()
  {
    assert 'T' !in "Analyze the " && 'T' !in "following " && 'T' !in "wind farm ";
    assert 'T' !in "state and " && 'T' !in "determine the " && 'T' !in "appropriate ";
    assert 'T' !in "risk level.\n" && 'T' !in "System State:\n";
  }

  /** `get_risk_parameter`: the weight for the next step. It depends on
      `detection` alone, whatever the power and stress texts are. */
  function RiskParameter(detection: bool, powerText: string, stressText: string,
                         omegaBase: real, omegaAttack: real): (w: real)
    requires NumericText(powerText) && NumericText(stressText)
    ensures detection ==> w == omegaAttack
    ensures !detection ==> w == omegaBase
  {
    PromptSignalsDetection(detection, powerText, stressText);
    var decision := AgentDecision(Prompt(detection, powerText, stressText));
    if decision == IncreaseRisk then omegaAttack else omegaBase
  }
}
