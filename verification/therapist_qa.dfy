/**
 * The therapist question-and-answer table both responders quote from.  Its
 * answer texts live in a file that is not part of this model, so an answer is
 * represented by the key it is looked up under: two replies are the same
 * canned answer exactly when their keys are equal.
 */
module TherapistQa {

  /** The entries of the table that the responders read, one per key. */
  datatype QaKey =
    | InitialGreeting
    | SymptomDetails
    | FamilyHistory
    | PreviousExperience
    | TreatmentConcerns
    | LongTermOutlook
    | SymptomDescription
    | TreatmentAttempts
    | SymptomProgression
    | ImpactOnLife
    | EmotionalImpact
    | SleepIssues
    | ClothingConcerns
    | HopeForRelief
    | ReliefExpression
}
