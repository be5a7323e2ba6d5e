/**
 The notification service's deduplication key: computed from the event type string and ids
 of an event as it arrives on the bus, and how it tells occurrences apart.
 */
module DedupKeys {
  import opened Wrappers
  import opened Queue

  datatype StaffAction = AccountCreated | RoleChanged | Deactivated | Reactivated | PasswordReset

  /** What one email is about. */
  datatype Subject =
    | Submission(ref: Ref)
    | Resubmission(ref: Ref, entry: Id)
    | Decision(ref: Ref, entry: Id)
    | Warning(entry: Id)
    | Breach(entry: Id)
    | Staff(kind: StaffAction, moderator: Id, action: Id)

  /** An event on the wire. `entityId` is whichever id field its type carries; the optional
      fields are absent from the event types that do not declare them. */
  datatype WireEvent = WireEvent(
    eventType: string, entityId: Id, isResubmission: Option<bool>, moderationQueueEntryId: Option<Id>,
    actionId: Option<Id>)

  /** The unique key of the log table; `None` stands for the empty string. */
  datatype Key = Key(entityType: string, entityId: Id, eventType: string, moderationQueueEntryId: Option<Id>)

  function EntityTypeText(t: EntityType): string {
    match t
    case RoundRating => "round_rating"
    case RecruiterRating => "recruiter_rating"
    case OverallReview => "overall_review"
    case Company => "company"
  }

  function StaffActionText(a: StaffAction): string {
    match a
    case AccountCreated => "created"
    case RoleChanged => "role_changed"
    case Deactivated => "deactivated"
    case Reactivated => "reactivated"
    case PasswordReset => "password_reset"
  }

  function CreatedType(t: EntityType): string { "moderation." + EntityTypeText(t) + ".created" }

  function StatusChangedType(t: EntityType): string { "moderation." + EntityTypeText(t) + ".status_changed" }

  function StaffType(a: StaffAction): string { "staff.account." + StaffActionText(a) }

  const WARNING_TYPE := "moderation.queue.sla_warning"
  const BREACH_TYPE := "moderation.queue.sla_breach"

  // ---- the consumer's own tests on the type string ----

  predicate EndsWith(s: string, suffix: string) {
    |s| >= |suffix| && s[|s| - |suffix|..] == suffix
  }

  predicate StartsWith(s: string, prefix: string) {
    |s| >= |prefix| && s[..|prefix|] == prefix
  }

  predicate IsStatusChangedEvent(e: WireEvent) { EndsWith(e.eventType, ".status_changed") }

  predicate IsCreatedEvent(e: WireEvent) {
    e.eventType in {CreatedType(RoundRating), CreatedType(RecruiterRating), CreatedType(OverallReview),
        CreatedType(Company)}
  }

  predicate IsStaffAccountEvent(e: WireEvent) { StartsWith(e.eventType, "staff.account.") }

  function ModerationQueueEntryIdFor(e: WireEvent): Option<Id> {
    if IsStatusChangedEvent(e) then e.moderationQueueEntryId
    else if IsCreatedEvent(e) && e.isResubmission == Some(true) then e.moderationQueueEntryId
    else if IsStaffAccountEvent(e) then e.actionId
    else None
  }

  function EntityTypeFor(eventType: string): string {
    if eventType == CreatedType(RoundRating) || eventType == StatusChangedType(RoundRating) then "round_rating"
    else if eventType == CreatedType(RecruiterRating) || eventType == StatusChangedType(RecruiterRating)
    then "recruiter_rating"
    else if eventType == CreatedType(OverallReview) || eventType == StatusChangedType(OverallReview)
    then "overall_review"
    else if eventType == CreatedType(Company) || eventType == StatusChangedType(Company) then "company"
    else if eventType == BREACH_TYPE || eventType == WARNING_TYPE then "moderation_queue"
    else "staff_account"
  }

  function KeyFor(e: WireEvent): Key {
    Key(EntityTypeFor(e.eventType), e.entityId, e.eventType, ModerationQueueEntryIdFor(e))
  }

  // ---- what is published for each subject ----

  function Wire(s: Subject): WireEvent {
    match s
    case Submission(ref) =>
      WireEvent(CreatedType(ref.etype), ref.eid, if ref.etype == Company then None else Some(false), None, None)
    case Resubmission(ref, entry) => WireEvent(CreatedType(ref.etype), ref.eid, Some(true), Some(entry), None)
    case Decision(ref, entry) => WireEvent(StatusChangedType(ref.etype), ref.eid, None, Some(entry), None)
    case Warning(entry) => WireEvent(WARNING_TYPE, entry, None, None, None)
    case Breach(entry) => WireEvent(BREACH_TYPE, entry, None, None, None)
    case Staff(kind, moderator, action) => WireEvent(StaffType(kind), moderator, None, None, Some(action))
  }

  function KeyOf(s: Subject): Key { KeyFor(Wire(s)) }

  // ---- the type strings are told apart as intended ----

  lemma StatusChangedIsRecognised(t: EntityType)
    ensures EndsWith(StatusChangedType(t), ".status_changed")
    ensures !StartsWith(StatusChangedType(t), "staff.account.")
  {
    assert StatusChangedType(t)[0] == 'm';
  }

  lemma FromTheEnd(s: string, suffix: string, n: nat)
    requires n < |suffix|
    ensures EndsWith(s, suffix) ==> s[|s| - 1 - n] == suffix[|suffix| - 1 - n]
  {
  }

  /** ".created" and ".status_changed" differ in their third character from the end. */
  lemma CreatedIsRecognised(t: EntityType)
    ensures EndsWith(CreatedType(t), ".created") && !EndsWith(CreatedType(t), ".status_changed")
    ensures !StartsWith(CreatedType(t), "staff.account.")
  {
    FromTheEnd(CreatedType(t), ".created", 2);
    FromTheEnd(CreatedType(t), ".status_changed", 2);
    assert CreatedType(t)[0] == 'm';
  }

  lemma StaffStarts(a: StaffAction)
    ensures StartsWith(StaffType(a), "staff.account.") && StaffType(a)[0] == 's'
  {
    assert StaffType(a)[..14] == "staff.account.";
  }

  /** The first character from the end at which a staff event type differs from ".status_changed". */
  lemma StaffIsNotStatusChanged(a: StaffAction)
    ensures !EndsWith(StaffType(a), ".status_changed")
  {
    var t, text := StaffType(a), StaffActionText(a);
    var n := match a case RoleChanged => 8 case PasswordReset => 0 case _ => 2;
    FromTheEnd(t, ".status_changed", n);
    assert t[|t| - 1 - n] == text[|text| - 1 - n];
  }

  lemma StaffIsRecognised(a: StaffAction)
    ensures StartsWith(StaffType(a), "staff.account.") && !EndsWith(StaffType(a), ".status_changed")
    ensures StaffType(a)[0] == 's'
  {
    hide StartsWith, EndsWith, StaffType;
    StaffStarts(a);
    StaffIsNotStatusChanged(a);
  }

  lemma SlaTypesDiffer()
    ensures !StartsWith(WARNING_TYPE, "staff.account.") && !StartsWith(BREACH_TYPE, "staff.account.")
    ensures WARNING_TYPE != BREACH_TYPE
  {
    assert WARNING_TYPE[0] == 'm' && BREACH_TYPE[0] == 'm' && |WARNING_TYPE| != |BREACH_TYPE|;
  }

  lemma QueueTypesAreNeither()
    ensures !EndsWith(WARNING_TYPE, ".status_changed") && !EndsWith(BREACH_TYPE, ".status_changed")
    ensures forall t :: CreatedType(t) != WARNING_TYPE && CreatedType(t) != BREACH_TYPE
  {
    FromTheEnd(WARNING_TYPE, ".status_changed", 0);
    FromTheEnd(BREACH_TYPE, ".status_changed", 0);
    forall t ensures CreatedType(t) != WARNING_TYPE && CreatedType(t) != BREACH_TYPE {
      CreatedIsRecognised(t);
      FromTheEnd(CreatedType(t), ".created", 0);
    }
  }

  // ---- the key tells occurrences apart ----

  function TypeOf(s: Subject): string { Wire(s).eventType }

  /** The id part of the key is the queue entry for a resubmission or a decision, the action
      for a staff event, and empty for the events that fire once. */
  lemma EntryPart(s: Subject)
    ensures KeyOf(s).moderationQueueEntryId == match s
      case Resubmission(_, entry) => Some(entry)
      case Decision(_, entry) => Some(entry)
      case Staff(_, _, action) => Some(action)
      case _ => None
  {
    hide EndsWith, StartsWith, CreatedType, StatusChangedType, StaffType, EntityTypeFor;
    QueueTypesAreNeither();
    match s
    case Submission(ref) => CreatedIsRecognised(ref.etype);
    case Resubmission(ref, _) =>
      CreatedIsRecognised(ref.etype);
      assert ref.etype.RoundRating? || ref.etype.RecruiterRating? || ref.etype.OverallReview? || ref.etype.Company?;
    case Decision(ref, _) => StatusChangedIsRecognised(ref.etype);
    case Staff(kind, _, _) =>
      StaffIsRecognised(kind);
      forall t ensures CreatedType(t) != StaffType(kind) { CreatedIsRecognised(t); }
    case _ =>
  }

  lemma TypeTextsDiffer(t: EntityType, u: EntityType)
    ensures CreatedType(t) == CreatedType(u) ==> t == u
    ensures StatusChangedType(t) == StatusChangedType(u) ==> t == u
  {
  }

  lemma StaffTextsDiffer(a: StaffAction, b: StaffAction)
    ensures StaffType(a) == StaffType(b) ==> a == b
  {
    assert StaffType(a)[14..] == StaffActionText(a) && StaffType(b)[14..] == StaffActionText(b);
  }

  /** Which of the four families of event types a subject belongs to. */
  function Family(s: Subject): nat {
    match s
    case Submission(_) => 0
    case Resubmission(_, _) => 0
    case Decision(_, _) => 1
    case Warning(_) => 2
    case Breach(_) => 3
    case Staff(_, _, _) => 4
  }

  lemma FamiliesDiffer(a: Subject, b: Subject)
    requires TypeOf(a) == TypeOf(b)
    ensures Family(a) == Family(b)
  {
    QueueTypesAreNeither();
    FamilyMarks(a);
    FamilyMarks(b);
  }

  lemma FamilyMarks(s: Subject)
    ensures EndsWith(TypeOf(s), ".status_changed") <==> Family(s) == 1
    ensures StartsWith(TypeOf(s), "staff.account.") <==> Family(s) == 4
    ensures TypeOf(s) == WARNING_TYPE <==> Family(s) == 2
    ensures TypeOf(s) == BREACH_TYPE <==> Family(s) == 3
  {
    hide EndsWith, StartsWith, CreatedType, StatusChangedType, StaffType;
    QueueTypesAreNeither();
    SlaTypesDiffer();
    match s
    case Submission(ref) => CreatedIsRecognised(ref.etype);
    case Resubmission(ref, _) => CreatedIsRecognised(ref.etype);
    case Decision(ref, _) => StatusChangedIsRecognised(ref.etype);
    case Staff(kind, _, _) => StaffIsRecognised(kind);
    case _ =>
  }

  /** Two subjects with the same key are the same occurrence. */
  lemma {:induction false} KeyIsInjective(a: Subject, b: Subject)
    ensures KeyOf(a) == KeyOf(b) ==> a == b
  {
    if KeyOf(a) == KeyOf(b) {
      FamiliesDiffer(a, b);
      EntryPart(a);
      EntryPart(b);
      if Family(a) <= 1 { TypeTextsDiffer(a.ref.etype, b.ref.etype); }
      if Family(a) == 4 { StaffTextsDiffer(a.kind, b.kind); }
    }
  }

  lemma EntityTypeIsRead(t: EntityType)
    ensures EntityTypeFor(CreatedType(t)) == EntityTypeText(t)
    ensures EntityTypeFor(StatusChangedType(t)) == EntityTypeText(t)
  {
    forall u ensures CreatedType(t) == CreatedType(u) ==> t == u
             ensures StatusChangedType(t) == StatusChangedType(u) ==> t == u
             ensures CreatedType(t) != StatusChangedType(u) && CreatedType(u) != StatusChangedType(t) {
      TypeTextsDiffer(t, u);
      CreatedIsRecognised(t);
      CreatedIsRecognised(u);
      StatusChangedIsRecognised(t);
      StatusChangedIsRecognised(u);
    }
    hide CreatedType, StatusChangedType, EndsWith, StartsWith;
  }

  lemma QueueTypesAreRead()
    ensures EntityTypeFor(WARNING_TYPE) == "moderation_queue" && EntityTypeFor(BREACH_TYPE) == "moderation_queue"
  {
    QueueTypesAreNeither();
    forall t ensures StatusChangedType(t) != WARNING_TYPE && StatusChangedType(t) != BREACH_TYPE {
      StatusChangedIsRecognised(t);
    }
    hide CreatedType, StatusChangedType, EndsWith, StartsWith;
  }

  lemma NeitherIsStaff(t: EntityType, a: StaffAction)
    ensures CreatedType(t) != StaffType(a) && StatusChangedType(t) != StaffType(a)
    ensures WARNING_TYPE != StaffType(a) && BREACH_TYPE != StaffType(a)
  {
    hide CreatedType, StatusChangedType, StaffType, EndsWith, StartsWith;
    StaffIsRecognised(a);
    SlaTypesDiffer();
    CreatedIsRecognised(t);
    StatusChangedIsRecognised(t);
  }

  lemma StaffTypesAreRead(a: StaffAction)
    ensures EntityTypeFor(StaffType(a)) == "staff_account"
  {
    hide CreatedType, StatusChangedType, StaffType;
    NeitherIsStaff(RoundRating, a);
    NeitherIsStaff(RecruiterRating, a);
    NeitherIsStaff(OverallReview, a);
    NeitherIsStaff(Company, a);
  }

  /** What the consumer reads off the type string is the key the notification sweep builds from
      what it finds in the tables, so each sees what the other has sent. */
  lemma {:induction false} KeyInFull(s: Subject)
    ensures KeyOf(s) == match s
      case Submission(ref) => Key(EntityTypeText(ref.etype), ref.eid, CreatedType(ref.etype), None)
      case Resubmission(ref, entry) => Key(EntityTypeText(ref.etype), ref.eid, CreatedType(ref.etype), Some(entry))
      case Decision(ref, entry) => Key(EntityTypeText(ref.etype), ref.eid, StatusChangedType(ref.etype), Some(entry))
      case Warning(entry) => Key("moderation_queue", entry, "moderation.queue.sla_warning", None)
      case Breach(entry) => Key("moderation_queue", entry, "moderation.queue.sla_breach", None)
      case Staff(kind, moderator, action) => Key("staff_account", moderator, StaffType(kind), Some(action))
  {
    EntryPart(s);
    match s
    case Warning(_) => QueueTypesAreRead();
    case Breach(_) => QueueTypesAreRead();
    case Staff(kind, _, _) => StaffTypesAreRead(kind);
    case _ => EntityTypeIsRead(s.ref.etype);
  }
}
