/** The stage names that the server and the client exchange as plain strings. */
module Stages {

  const AskMode := "ask_mode"
  const AskLocation := "ask_location"
  const AskSymptoms := "ask_symptoms"
  /** Returned by the server with the final advice; never stored in a session. */
  const Answer := "answer"

  /** The three intake stages, during which the client sends a dedicated field. */
  predicate IsIntake(stage: string) {
    stage == AskMode || stage == AskLocation || stage == AskSymptoms
  }
}
