/**
 The moderation database: the rated or reviewed entities, their moderation-queue
 entries and the AI auto-approval audit table, together with the effect of every
 transaction or single statement the services issue against them.

 Ids stand for freshly generated UUIDs. They are handed out in increasing order and
 never reused, so comparing two entry ids compares the entries' creation times.
 */
module Queue {
  import opened Wrappers

  type Id = nat
  type Person = nat
  type Content = string

  datatype EntityType = RoundRating | RecruiterRating | OverallReview | Company
  datatype Ref = Ref(etype: EntityType, eid: Id)
  datatype Status = Pending | Approved | Rejected | Flagged | PermanentlyRejected
  datatype Decision = Approve | Reject | Flag
  datatype FlagReason = RateLimit | Duplicate | AiTriageStalled | Manual

  /** Who resolves an entry: a signed-in member of staff, or one of the two system actors. */
  datatype Actor = Moderator(id: Person) | Admin(id: Person) | AutoApproval | StalledSweep

  /** A field of the JSON object the language model answered with. */
  datatype Json = JNull | JBool(b: bool) | JNumber(n: real) | JOther
  datatype Verdict = Verdict(concerning: Json, confidence: Json, eligible: bool)

  datatype Entity = Entity(owner: Option<Person>, content: Content, status: Status, verdict: Option<Verdict>)

  /** `content` is the submission the entry was opened for; the database does not store it,
      it is recorded so that properties can say which submission a decision was about. */
  datatype Entry = Entry(
    ref: Ref, content: Content, flagReason: Option<FlagReason>, escalated: bool, slaDeadline: int,
    decision: Option<Decision>, claimedBy: Option<Person>, warned: bool, breached: bool)

  datatype AuditInput = AuditInput(ref: Ref, verdict: Verdict, confidence: real)
  datatype Audit = Audit(entry: Id, input: AuditInput)

  /** `reviewAt` is the unique index on the process of an overall review: which review, if any,
      a process has. */
  datatype Db = Db(
    entities: map<Ref, Entity>, queue: map<Id, Entry>, audits: seq<Audit>, nextId: Id, reviewAt: map<Id, Ref>)

  const LIFETIME_RESUBMISSION_CAP := 3

  /** What happened, in commit order. `live` says whether the entity of a new entry was there. */
  datatype Event =
    | Opened(id: Id, ref: Ref, escalated: bool, live: bool)
    | Decided(id: Id, ref: Ref, decision: Decision, escalated: bool, actor: Actor)
    | Claimed(id: Id, who: Person)
    | Released(id: Id, who: Person)

  datatype Core = Core(db: Db, log: seq<Event>)

  /** One atomic effect on the database. */
  datatype Action =
    | Skip
    | Name(named: Id)
    | Submit(etype: EntityType, owner: Option<Person>, content: Content, flag: Option<FlagReason>, deadline: int,
             at: Option<Id>)
    | Resubmit(ref: Ref, content: Content, deadline: int)
    | Overwrite(target: Ref, seen: Ref, content: Content, deadline: int)
    | Remove(ref: Ref)
    | RemoveOther(target: Ref, seen: Ref)
    | Review(id: Id, ref: Ref, decision: Decision, status: Status, flag: Option<FlagReason>,
             actor: Actor, audit: Option<AuditInput>)
    | Claim(id: Id, who: Person)
    | Release(id: Id, who: Person)
    | DropOrphan(id: Id)
    | RawDelete(ref: Ref)
    | StoreVerdict(ref: Ref, verdict: Verdict)
    | StampWarned(id: Id)
    | StampBreached(id: Id)

  // ---- views ----

  /** All queue entries of one entity. */
  function Thread(queue: map<Id, Entry>, ref: Ref): map<Id, Entry> {
    map id | id in queue && queue[id].ref == ref :: queue[id]
  }

  /** The ids of its entries that have been decided. */
  function ReviewedOf(queue: map<Id, Entry>, ref: Ref): set<Id> {
    set id | id in queue && queue[id].ref == ref && queue[id].decision.Some?
  }

  function Unreviewed(queue: map<Id, Entry>, ref: Ref): set<Id> {
    set id | id in queue && queue[id].ref == ref && queue[id].decision.None?
  }

  /** The status an entity takes from a decision. */
  function Outcome(d: Decision, escalated: bool): Status {
    match d
    case Approve => Approved
    case Flag => Flagged
    case Reject => if escalated then PermanentlyRejected else Rejected
  }

  predicate Audited(db: Db, id: Id) {
    exists i :: 0 <= i < |db.audits| && db.audits[i].entry == id
  }

  /** The foreign key from the audit table refuses to lose the entry an audit row documents. */
  predicate AuditsBlock(db: Db, ref: Ref) {
    exists i :: 0 <= i < |db.audits| && db.audits[i].entry in db.queue && db.queue[db.audits[i].entry].ref == ref
  }

  // ---- when each conditional write takes effect ----

  /** A process takes one overall review; nothing else is limited this way. */
  predicate Vacant(db: Db, etype: EntityType, at: Option<Id>) {
    etype == OverallReview && at.Some? ==> at.value !in db.reviewAt
  }

  predicate CanRemove(db: Db, ref: Ref) {
    ref in db.entities && !AuditsBlock(db, ref)
  }

  predicate ReviewWins(db: Db, id: Id, ref: Ref) {
    id in db.queue && db.queue[id].decision.None? && ref in db.entities
  }

  predicate ClaimWins(db: Db, id: Id) {
    id in db.queue && db.queue[id].decision.None? && db.queue[id].claimedBy.None?
  }

  predicate ReleaseWins(db: Db, id: Id, who: Person) {
    id in db.queue && db.queue[id].claimedBy == Some(who)
  }

  // ---- effects ----

  function NewEntry(ref: Ref, content: Content, flag: Option<FlagReason>, escalated: bool, deadline: int): Entry {
    Entry(ref, content, flag, escalated, deadline, None, None, false, false)
  }

  function Escalates(queue: map<Id, Entry>, ref: Ref): bool {
    |ReviewedOf(queue, ref)| >= LIFETIME_RESUBMISSION_CAP
  }

  function SubmitTx(db: Db, etype: EntityType, owner: Option<Person>, content: Content,
                    flag: Option<FlagReason>, deadline: int, at: Option<Id>): Db {
    var ref := Ref(etype, db.nextId);
    Db(db.entities[ref := Entity(owner, content, Pending, None)],
       db.queue[db.nextId + 1 := NewEntry(ref, content, flag, false, deadline)], db.audits, db.nextId + 2,
       if etype == OverallReview && at.Some? then db.reviewAt[at.value := ref] else db.reviewAt)
  }

  /** `reenqueue`: whatever is open about `ref` makes way for one new entry. */
  function Reopened(db: Db, ref: Ref, content: Content, deadline: int): map<Id, Entry> {
    (db.queue - Unreviewed(db.queue, ref))[db.nextId :=
      NewEntry(ref, content, None, Escalates(db.queue, ref), deadline)]
  }

  /** An edit: the row `target` is rewritten, the queue is told about the review the call had
      read. The two are the same unless the write found its row by process. */
  function EditTx(db: Db, target: Ref, seen: Ref, content: Content, deadline: int): Db
    requires target in db.entities
  {
    Db(db.entities[target := db.entities[target].(content := content, status := Pending, verdict := None)],
       Reopened(db, seen, content, deadline), db.audits, db.nextId + 1, db.reviewAt)
  }

  function Vacated(reviewAt: map<Id, Ref>, ref: Ref): map<Id, Ref> {
    map p | p in reviewAt && reviewAt[p] != ref :: reviewAt[p]
  }

  /** A delete: the row `target` goes, and the entries of the review the call had read. */
  function RemoveTx(db: Db, target: Ref, seen: Ref): Db {
    db.(entities := db.entities - {target}, queue := db.queue - Thread(db.queue, seen).Keys,
        reviewAt := Vacated(db.reviewAt, target))
  }

  function ReviewTx(db: Db, id: Id, ref: Ref, decision: Decision, status: Status, flag: Option<FlagReason>,
                    audit: Option<AuditInput>): Db
    requires ReviewWins(db, id, ref)
  {
    var e := db.queue[id];
    Db(db.entities[ref := db.entities[ref].(status := status)],
       db.queue[id := e.(decision := Some(decision), flagReason := if flag.Some? then flag else e.flagReason)],
       if audit.Some? then db.audits + [Audit(id, audit.value)] else db.audits, db.nextId, db.reviewAt)
  }

  /** One field of one queue row. */
  function SetEntry(db: Db, id: Id, e: Entry): Db {
    db.(queue := db.queue[id := e])
  }

  function Act(c: Core, a: Action): Core {
    var db := c.db;
    match a
    case Skip => c
    case Name(named) => c.(db := db.(nextId := if named < db.nextId then db.nextId else named + 1))
    case Submit(etype, owner, content, flag, deadline, at) =>
      if !Vacant(db, etype, at) then c else
      Core(SubmitTx(db, etype, owner, content, flag, deadline, at),
           c.log + [Opened(db.nextId + 1, Ref(etype, db.nextId), false, true)])
    case Resubmit(ref, content, deadline) =>
      if ref !in db.entities then c else
      Core(EditTx(db, ref, ref, content, deadline),
           c.log + [Opened(db.nextId, ref, Escalates(db.queue, ref), true)])
    case Overwrite(target, seen, content, deadline) =>
      if target !in db.entities then c else
      Core(EditTx(db, target, seen, content, deadline),
           c.log + [Opened(db.nextId, seen, Escalates(db.queue, seen), false)])
    case Remove(ref) =>
      if CanRemove(db, ref) then c.(db := RemoveTx(db, ref, ref)) else c
    case RemoveOther(target, seen) =>
      if target in db.entities && !AuditsBlock(db, seen) then c.(db := RemoveTx(db, target, seen)) else c
    case Review(id, ref, decision, status, flag, actor, audit) =>
      if !ReviewWins(db, id, ref) then c else
      Core(ReviewTx(db, id, ref, decision, status, flag, audit),
           c.log + [Decided(id, db.queue[id].ref, decision, db.queue[id].escalated, actor)])
    case Claim(id, who) =>
      if !ClaimWins(db, id) then c else
      Core(SetEntry(db, id, db.queue[id].(claimedBy := Some(who))), c.log + [Claimed(id, who)])
    case Release(id, who) =>
      if !ReleaseWins(db, id, who) then c else
      Core(SetEntry(db, id, db.queue[id].(claimedBy := None)), c.log + [Released(id, who)])
    case DropOrphan(id) =>
      if Audited(db, id) then c else c.(db := db.(queue := db.queue - {id}))
    case RawDelete(ref) =>
      c.(db := db.(entities := db.entities - {ref}, reviewAt := Vacated(db.reviewAt, ref)))
    case StoreVerdict(ref, verdict) =>
      if ref !in db.entities then c else
      c.(db := db.(entities := db.entities[ref := db.entities[ref].(verdict := Some(verdict))]))
    case StampWarned(id) =>
      if id !in db.queue then c else c.(db := SetEntry(db, id, db.queue[id].(warned := true)))
    case StampBreached(id) =>
      if id !in db.queue then c else c.(db := SetEntry(db, id, db.queue[id].(breached := true)))
  }

  // ---- where a write finds its row ----

  /** The row an edit or delete takes effect on: the entity read earlier, or, for an overall
      review, whichever review its process has by now. */
  function Landing(db: Db, seen: Ref, at: Option<Id>): Option<Ref> {
    if at.None? then (if seen in db.entities then Some(seen) else None)
    else if at.value in db.reviewAt && db.reviewAt[at.value] in db.entities then Some(db.reviewAt[at.value])
    else None
  }

  function EditAction(db: Db, seen: Ref, at: Option<Id>, content: Content, deadline: int): Action {
    var row := Landing(db, seen, at);
    if row.None? then Skip
    else if row.value == seen then Resubmit(seen, content, deadline)
    else Overwrite(row.value, seen, content, deadline)
  }

  function DeleteAction(db: Db, seen: Ref, at: Option<Id>): Action {
    var row := Landing(db, seen, at);
    if row.None? then Skip
    else if row.value == seen then Remove(seen)
    else RemoveOther(row.value, seen)
  }

  const EmptyDb := Db(map[], map[], [], 0, map[])
  const EmptyCore := Core(EmptyDb, [])
}
