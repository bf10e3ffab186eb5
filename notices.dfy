/**
 * What the core hands to the global logger (`window.logger`): one value per
 * `logViolation`, `logEvent` or `logError` call a monitor or the controller makes.
 * Message texts are not modelled; the numbers they carry are (whole seconds are
 * `Math.floor(ms / 1000)`, which for a positive divisor is Dafny's `/`).
 */
module Notices {

  datatype Notice =
    | NoPersonFor(seconds: int)         // violation NO_PERSON
    | WrongPersonSeen(similarity: real) // violation WRONG_PERSON
    | MultipleFacesSeen(faces: nat)     // violation MULTIPLE_FACES
    | LookingAwayFor(seconds: int)      // violation LOOKING_AWAY
    | MobileSeen                        // violation MOBILE_DETECTED
    | AttentionRestored(seconds: int)   // event ATTENTION_RESTORED
    | ReferenceSet                      // event REFERENCE_SET
    | MonitoringStarted                 // event MONITORING
    | MonitoringStopped                 // event MONITORING
    | SessionEnded                      // event SESSION_END
    | DetectionFailed                   // error DETECTION
  {
    /** Whether the notice goes through `logViolation`. */
    predicate IsViolation() {
      NoPersonFor? || WrongPersonSeen? || MultipleFacesSeen? || LookingAwayFor? || MobileSeen?
    }
  }
}
