/** Success and failure values shared by the scoring and pricing modules. */
module Outcome {

  /** The ways a quote simulation can fail. */
  datatype Error =
    | UnknownResidence   // residence code matched no arm of the residence switch
    | UnmatchedScore     // risk score matched no arm of the tier switch (a negative score)
    | InvalidRiskLevel   // "Nível de risco inválido": tier outside 1..5
    | InvalidCoverage    // "Cobertura inválida": a coverage code outside the four known ones

  datatype Result<+T> = Ok(value: T) | Err(error: Error)

  datatype Option<+T> = None | Some(value: T)
}
