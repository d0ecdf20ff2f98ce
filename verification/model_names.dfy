/** The closed set of upstream model identifiers. */
module ModelNames {

  const ModelSonarPro := "sonar-pro"
  const ModelSonar := "sonar"
  const ModelDeepResearch := "sonar-deep-research"
  const ModelReasoningPro := "sonar-reasoning-pro"
  const ModelReasoning := "sonar-reasoning"
  /** The offline model: it performs no live search. */
  const ModelR1 := "r1-1776"

  /** The identifiers a caller may name, in the order the handler searches them. */
  const ValidModels: seq<string> :=
    [ModelSonarPro, ModelSonar, ModelDeepResearch, ModelReasoningPro, ModelReasoning, ModelR1]

  /** Linear search of the closed set, stopping at the first match. */
  method IsValidModel(model: string) returns (valid: bool)
    ensures valid <==> model in ValidModels
  {
    valid := false;
    for i := 0 to |ValidModels|
      invariant valid <==> model in ValidModels[..i]
    {
      if model == ValidModels[i] {
        valid := true;
        break;
      }
    }
  }
}
