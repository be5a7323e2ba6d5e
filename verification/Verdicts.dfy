/**
 The AI triage service: which verdicts may be applied without a moderator, and the events
 that carry verdicts to the moderation service.
 */
module Verdicts {
  import opened Wrappers
  import opened Queue

  /** What the language model answered, and the configuration read at that moment. */
  datatype Analysis = Analysis(concerning: Json, confidence: Json, enabled: bool, threshold: Option<real>)

  /** `ref` stands for the event type together with the entity id it carries. */
  datatype VerdictEvent = VerdictEvent(ref: Ref, stalled: bool, verdict: Option<Verdict>, eligible: bool,
      confidence: Json)

  /** An event on the bus, with the analysis it was built from (none for a stalled report). */
  datatype Publication = Publication(event: VerdictEvent, origin: Option<Analysis>)

  predicate IsEligibleForAutoApproval(a: Analysis) {
    if !a.enabled then false
    else if a.concerning != JBool(false) then false
    else if !a.confidence.JNumber? then false
    else if a.threshold.None? then false
    else a.confidence.n >= a.threshold.value
  }

  function BuildVerdictComputedEvent(ref: Ref, result: Option<Analysis>): VerdictEvent {
    if result.Some? then
      var eligible := IsEligibleForAutoApproval(result.value);
      VerdictEvent(ref, false, Some(Verdict(result.value.concerning, result.value.confidence, eligible)),
                   eligible, result.value.confidence)
    else
      VerdictEvent(ref, true, None, false, JNull)
  }

  /** The consumer's schema check: the confidence is null or a number. An event without the
      field is refused; the builder always sets it. */
  predicate WellFormed(e: VerdictEvent) {
    (e.confidence.JNull? || e.confidence.JNumber?) && e.ref.etype != Company
  }

  function AuditInputFor(e: VerdictEvent): AuditInput {
    AuditInput(e.ref, if e.verdict.Some? then e.verdict.value else Verdict(JOther, JOther, false),
               if e.confidence.JNumber? then e.confidence.n else 0.0)
  }

  /** The analysis behind an auto-approval audit row: not concerning, and confident enough
      for the threshold in force when it was computed. */
  ghost predicate Supports(p: Publication, input: AuditInput) {
    && p.event.ref == input.ref
    && p.event.verdict == Some(input.verdict)
    && p.origin.Some?
    && p.origin.value.enabled
    && p.origin.value.concerning == JBool(false) == input.verdict.concerning
    && p.origin.value.confidence == JNumber(input.confidence) == input.verdict.confidence
    && p.origin.value.threshold.Some? && input.confidence >= p.origin.value.threshold.value
  }

  lemma EligibleEventSupportsItsAudit(ref: Ref, result: Option<Analysis>)
    ensures var e := BuildVerdictComputedEvent(ref, result);
            e.eligible <==> Supports(Publication(e, result), AuditInputFor(e))
  {
  }
}
