/**
 Every service call as a sequence of atomic database steps, interleaved with any number of
 other calls. A call in flight is a program counter together with what it has read so far;
 a run is any list of steps.

 A request names arbitrary ids. Naming an id retires it from future allocation, which is how
 "a freshly generated UUID was never seen before" reads here.
 */
module Protocol {
  import opened Wrappers
  import opened Queue
  import opened Verdicts
  import opened Lifecycle
  import opened History

  datatype Request = Request(id: Id, decision: Decision, flag: Option<FlagReason>, actor: Actor,
      audit: Option<AuditInput>)

  /** The domain events the notification service consumes. */
  datatype Message =
    | Created(ref: Ref, resubmission: Option<Id>)
    | StatusChanged(ref: Ref, entry: Id, status: Status)
    | SlaWarning(entry: Id)
    | SlaBreach(entry: Id)

  datatype Call =
    | Done
    | AckCreate(ref: Ref)
    | EditRead(ref: Ref, who: Person, content: Content)
    | EditReadAt(process: Id, who: Person, content: Content)
    | EditCommit(ref: Ref, who: Person, content: Content, at: Option<Id>)
    | AckEdit(ref: Ref, entry: Id)
    | DeleteRead(ref: Ref, who: Person)
    | DeleteReadAt(process: Id, who: Person)
    | DeleteCommit(ref: Ref, who: Person, at: Option<Id>)
    | Guard(req: Request)
    | ReviewRead(req: Request)
    | EntityCheck(req: Request, seen: Entry)
    | ReviewCommit(req: Request, seen: Entry)
    | StaleDelete(id: Id)
    | Announce(ref: Ref, entry: Id, status: Status)
    | ClaimRead(id: Id, who: Person)
    | ClaimCommit(id: Id, who: Person)
    | ReleaseRead(id: Id, who: Person)
    | ReleaseCommit(id: Id, who: Person)
    | Consume(event: VerdictEvent)
    | AutoFind(event: VerdictEvent)
    | StalledFind(ref: Ref)
    | OrphanRead(id: Id)
    | OrphanFetch(id: Id, seen: Entry)
    | SlaFind(id: Id, breach: bool)
    | SlaPublish(id: Id, breach: bool)
    | SlaStamp(id: Id, breach: bool)

  datatype State = State(core: Core, calls: seq<Call>, outbox: seq<Message>, published: seq<Publication>)

  /** What the environment chooses when a call takes its next step: the clock, the deadline of
      an entry it may open, and which row an unordered query returns first. */
  datatype Env = Env(now: int, slaWindow: int, found: Option<Id>)

  datatype Step =
    | SubmitNew(etype: EntityType, owner: Option<Person>, content: Content, flag: Option<FlagReason>, at: Option<Id>,
                env: Env)
    | Arrive(call: Call)
    | Advance(c: nat, env: Env)
    | Analyse(ref: Ref, result: Option<Analysis>)
    | EraseRaw(ref: Ref)

  // ---- requests ----

  predicate Human(a: Actor) {
    a.Moderator? || a.Admin?
  }

  /** Where a request may enter. Approve and reject pass through the escalation guard, flag does
      not; an overall review is named by its process, everything else by its own id. */
  predicate MayArrive(s: State, call: Call) {
    match call
    case EditRead(ref, _, _) => ref.etype != OverallReview
    case EditReadAt(_, _, _) => true
    case DeleteRead(ref, _) => ref.etype != Company && ref.etype != OverallReview
    case DeleteReadAt(_, _) => true
    case Guard(req) => Human(req.actor) && req.decision != Flag && req.audit.None? && req.flag.None?
    case ReviewRead(req) => Human(req.actor) && req.decision == Flag && req.audit.None?
    case ClaimRead(_, _) => true
    case ReleaseRead(_, _) => true
    case Consume(e) => WellFormed(e) && exists p :: 0 <= p < |s.published| && s.published[p].event == e
    case OrphanRead(_) => true
    case SlaFind(_, _) => true
    case _ => false
  }

  function NamedId(call: Call): Option<Id> {
    match call
    case Guard(req) => Some(req.id)
    case ReviewRead(req) => Some(req.id)
    case ClaimRead(id, _) => Some(id)
    case ReleaseRead(id, _) => Some(id)
    case OrphanRead(id) => Some(id)
    case SlaFind(id, _) => Some(id)
    case _ => None
  }

  // ---- one step of one call ----

  /** `findFirst` over the unreviewed entries of an entity, newest first. */
  predicate IsNewestUnreviewed(queue: map<Id, Entry>, ref: Ref, found: Option<Id>) {
    if found.None? then Unreviewed(queue, ref) == {}
    else found.value in Unreviewed(queue, ref) && forall id :: id in Unreviewed(queue, ref) ==> id <= found.value
  }

  predicate FoundOk(db: Db, call: Call, env: Env) {
    match call
    case AutoFind(e) => IsNewestUnreviewed(db.queue, e.ref, env.found)
    case StalledFind(ref) => IsNewestUnreviewed(db.queue, ref, env.found)
    case _ => true
  }

  predicate EditAllowed(ref: Ref, e: Entity, who: Person) {
    && e.owner == Some(who)
    && if ref.etype == Company then e.status != Approved else e.status != PermanentlyRejected
  }

  predicate SlaDue(e: Entry, breach: bool, env: Env) {
    && e.decision.None?
    && if breach then !e.breached && e.slaDeadline < env.now
       else !e.warned && e.claimedBy.None? && env.now < e.slaDeadline && 4 * (e.slaDeadline - env.now) <= env.slaWindow
  }

  function CallAction(db: Db, call: Call, env: Env): Action {
    match call
    case EditCommit(ref, _, content, at) => EditAction(db, ref, at, content, env.now + env.slaWindow)
    case DeleteCommit(ref, _, at) => DeleteAction(db, ref, at)
    case StaleDelete(id) => DropOrphan(id)
    case ReviewCommit(req, seen) =>
      Review(req.id, seen.ref, req.decision, Outcome(req.decision, seen.escalated), req.flag, req.actor, req.audit)
    case ClaimCommit(id, who) => Claim(id, who)
    case ReleaseCommit(id, who) => Release(id, who)
    case Consume(e) => if e.stalled then Skip else StoreVerdict(e.ref, AuditInputFor(e).verdict)
    case SlaStamp(id, breach) => if breach then StampBreached(id) else StampWarned(id)
    case _ => Skip
  }

  function ReviewAt(db: Db, process: Id): Option<Ref> {
    if process in db.reviewAt then Some(db.reviewAt[process]) else None
  }

  /** The checks before an edit, on the row that was read. */
  function EditAfter(db: Db, found: Option<Ref>, who: Person, content: Content, at: Option<Id>): Call {
    if found.Some? && found.value in db.entities && EditAllowed(found.value, db.entities[found.value], who)
    then EditCommit(found.value, who, content, at) else Done
  }

  function DeleteAfter(db: Db, found: Option<Ref>, who: Person, at: Option<Id>): Call {
    if found.Some? && found.value in db.entities && db.entities[found.value].owner == Some(who)
    then DeleteCommit(found.value, who, at) else Done
  }

  function NextCall(db: Db, call: Call, env: Env): Call {
    match call
    case EditRead(ref, who, content) => EditAfter(db, Some(ref), who, content, None)
    case EditReadAt(p, who, content) => EditAfter(db, ReviewAt(db, p), who, content, Some(p))
    case EditCommit(ref, _, _, at) =>
      if Landing(db, ref, at).Some? && ref.etype != Company then AckEdit(ref, db.nextId) else Done
    case DeleteRead(ref, who) => DeleteAfter(db, Some(ref), who, None)
    case DeleteReadAt(p, who) => DeleteAfter(db, ReviewAt(db, p), who, Some(p))
    case Guard(req) =>
      if req.id in db.queue && db.queue[req.id].escalated && !req.actor.Admin? then Done else ReviewRead(req)
    case ReviewRead(req) =>
      if req.id in db.queue && db.queue[req.id].decision.None? then EntityCheck(req, db.queue[req.id]) else Done
    case EntityCheck(req, seen) =>
      if seen.ref in db.entities then ReviewCommit(req, seen) else StaleDelete(req.id)
    case ReviewCommit(req, seen) =>
      if ReviewWins(db, req.id, seen.ref) then Announce(seen.ref, req.id, Outcome(req.decision, seen.escalated))
      else Done
    case ClaimRead(id, who) => if ClaimWins(db, id) then ClaimCommit(id, who) else Done
    case ReleaseRead(id, who) => if ReleaseWins(db, id, who) then ReleaseCommit(id, who) else Done
    case Consume(e) =>
      if e.stalled then StalledFind(e.ref)
      else if e.ref in db.entities && e.eligible then AutoFind(e) else Done
    case AutoFind(e) =>
      if env.found.Some? && env.found.value in db.queue && !db.queue[env.found.value].escalated
      then ReviewRead(Request(env.found.value, Approve, None, AutoApproval, Some(AuditInputFor(e)))) else Done
    case StalledFind(ref) =>
      if env.found.Some? then ReviewRead(Request(env.found.value, Flag, Some(AiTriageStalled), StalledSweep, None))
      else Done
    case OrphanRead(id) =>
      if id in db.queue && db.queue[id].decision.None? then OrphanFetch(id, db.queue[id]) else Done
    case OrphanFetch(id, seen) => if seen.ref in db.entities then Done else StaleDelete(id)
    case SlaFind(id, breach) =>
        if id in db.queue && SlaDue(db.queue[id], breach, env) then SlaPublish(id, breach) else Done
    case SlaPublish(id, breach) => SlaStamp(id, breach)
    case _ => Done
  }

  /** What the step publishes. An event about an entity that is gone, or that has nobody to
      notify, is not published. */
  function Emitted(db: Db, call: Call): seq<Message> {
    match call
    case AckCreate(ref) => if ref in db.entities && db.entities[ref].owner.Some? then [Created(ref, None)] else []
    case AckEdit(ref, entry) => if ref in db.entities then [Created(ref, Some(entry))] else []
    case Announce(ref, entry, status) =>
      if ref in db.entities && db.entities[ref].owner.Some? then [StatusChanged(ref, entry, status)] else []
    case SlaPublish(id, breach) => [if breach then SlaBreach(id) else SlaWarning(id)]
    case _ => []
  }

  // ---- runs ----

  function ActionOf(s: State, step: Step): Action {
    match step
    case SubmitNew(etype, owner, content, flag, at, env) =>
      Submit(etype, owner, content, flag, env.now + env.slaWindow, at)
    case Arrive(call) => if NamedId(call).Some? then Name(NamedId(call).value) else Skip
    case Advance(c, env) => if c < |s.calls| then CallAction(s.core.db, s.calls[c], env) else Skip
    case Analyse(_, _) => Skip
    case EraseRaw(ref) => RawDelete(ref)
  }

  predicate Enabled(s: State, step: Step) {
    match step
    case SubmitNew(etype, owner, _, _, at, _) =>
      (etype == Company || owner.Some?) && (at.Some? <==> etype == OverallReview) && Vacant(s.core.db, etype, at)
    case Arrive(call) => MayArrive(s, call)
    case Advance(c, env) => c < |s.calls| && FoundOk(s.core.db, s.calls[c], env)
    case Analyse(ref, _) => ref.etype != Company
    case EraseRaw(_) => true
  }

  /** A step that is not enabled changes nothing. */
  function Exec(s: State, step: Step): State {
    if !Enabled(s, step) then s else
    var core' := Act(s.core, ActionOf(s, step));
    match step
    case SubmitNew(etype, _, _, _, _, _) =>
        s.(core := core', calls := s.calls + [AckCreate(Ref(etype, s.core.db.nextId))])
    case Arrive(call) => s.(core := core', calls := s.calls + [call])
    case Advance(c, env) =>
      State(core', s.calls[c := NextCall(s.core.db, s.calls[c], env)], s.outbox + Emitted(s.core.db, s.calls[c]),
            s.published)
    case Analyse(ref, result) =>
      s.(core := core', published := s.published + [Publication(BuildVerdictComputedEvent(ref, result), result)])
    case EraseRaw(_) => s.(core := core')
  }

  const Start := State(EmptyCore, [], [], [])

  function Run(steps: seq<Step>): State {
    if steps == [] then Start else Exec(Run(steps[..|steps| - 1]), steps[|steps| - 1])
  }
}
