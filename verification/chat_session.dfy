/**
 * The persisted ChatSession entity: its record shape, the schema's required
 * fields and enumerations, and the row-level read/write access rules.
 */
module ChatSession {
  import opened Wrappers

  /** One `{question, answer}` item of `follow_up_questions`. */
  datatype FollowUpItem = FollowUpItem(question: string, answer: string)

  /**
   * A ChatSession record as handed to or returned by the entity store.
   * Every schema property is optional in the record itself; `createdBy` is
   * the owner the store stamps on creation.
   */
  datatype SessionRecord = SessionRecord(
    userMessage: Option<string>,
    botResponse: Option<string>,
    followUpQuestions: Option<seq<FollowUpItem>>,
    language: Option<string>,
    severityAssessment: Option<string>,
    sessionType: Option<string>,
    createdBy: Option<string>)

  /** The `severity_assessment` enumeration. */
  const Severities: seq<string> := ["low", "medium", "high", "emergency"]

  /** The `session_type` enumeration. */
  const SessionTypes: seq<string> := ["symptom_check", "general_health", "preventive_care", "emergency"]

  /** An optional property that, when present, holds one of the allowed values. */
  predicate InEnumIfPresent(v: Option<string>, allowed: seq<string>) {
    v.Some? ==> v.value in allowed
  }

  /** The schema's acceptance condition for a record. */
  predicate ValidRecord(r: SessionRecord) {
    && r.userMessage.Some?
    && r.botResponse.Some?
    && r.language.Some?
    && InEnumIfPresent(r.severityAssessment, Severities)
    && InEnumIfPresent(r.sessionType, SessionTypes)
  }

  /** The signed-in user the access rules are evaluated against. */
  datatype Viewer = Viewer(email: string, role: string)

  /** `rls.read`: the owner, or any admin. */
  predicate CanRead(r: SessionRecord, v: Viewer) {
    r.createdBy == Some(v.email) || v.role == "admin"
  }

  /** `rls.write`: the owner only. */
  predicate CanWrite(r: SessionRecord, v: Viewer) {
    r.createdBy == Some(v.email)
  }

  /** Whoever may write a record may also read it; an admin reads every record. */
  lemma AccessRules(r: SessionRecord, v: Viewer)
    ensures CanWrite(r, v) ==> CanRead(r, v)
    ensures v.role == "admin" ==> CanRead(r, v)
    ensures v.role != "admin" ==> (CanRead(r, v) <==> CanWrite(r, v))
    ensures r.createdBy.None? ==> !CanWrite(r, v)
  {
  }

  /** Distinct users cannot both write the same record. */
  lemma SingleWriter(r: SessionRecord, v: Viewer, w: Viewer)
    requires CanWrite(r, v) && CanWrite(r, w)
    ensures v.email == w.email
  {
  }
}
