/**
 The transactions of the moderation and write-path services, statement by statement, on
 tables that are updated in place. Each method is one database transaction: a failing
 statement restores the tables. Every method is proved to have the effect `Queue.Act`
 gives to its action, so what is proved of `Act` holds of these bodies.
 */
module QueueStore {
  import opened Wrappers
  import opened Queue

  /** `computeSlaDeadline`: the clock of an entry starts when it is opened. */
  function SlaDeadline(now: int, slaHours: nat): int {
    now + slaHours * 60 * 60 * 1000
  }

  class Tables {
    var entities: map<Ref, Entity>
    var queue: map<Id, Entry>
    var audits: seq<Audit>
    var nextId: Id
    var reviewAt: map<Id, Ref>
    const slaHours: nat
    ghost var log: seq<Event>

    ghost function State(): Core
      reads this
    {
      Core(Db(entities, queue, audits, nextId, reviewAt), log)
    }

    constructor (slaHours: nat)
      ensures State() == EmptyCore && this.slaHours == slaHours
    {
      entities, queue, audits, nextId, reviewAt, log := map[], map[], [], 0, map[], [];
      this.slaHours := slaHours;
    }

    method FreshId() returns (id: Id)
      modifies this`nextId
      ensures id == old(nextId) && nextId == id + 1
    {
      id := nextId;
      nextId := nextId + 1;
    }

    /** `enqueue`: the first entry of a new entity, never escalated. */
    method Enqueue(ref: Ref, content: Content, flag: Option<FlagReason>, now: int) returns (id: Id)
      modifies this`queue, this`nextId, this`log
      ensures id == old(nextId) && nextId == id + 1
      ensures queue == old(queue)[id := NewEntry(ref, content, flag, false, now + slaHours * 3_600_000)]
      ensures log == old(log) + [Opened(id, ref, false, true)]
    {
      id := FreshId();
      queue := queue[id := NewEntry(ref, content, flag, false, SlaDeadline(now, slaHours))];
      log := log + [Opened(id, ref, false, true)];
    }

    /** `reenqueue`: delete the unreviewed entries, count what is left, create. */
    method Reenqueue(ref: Ref, content: Content, now: int, ghost live: bool) returns (id: Id)
      modifies this`queue, this`nextId, this`log
      ensures id == old(nextId) && nextId == id + 1
      ensures queue == (old(queue) - Unreviewed(old(queue), ref))
                       [id := NewEntry(ref, content, None, Escalates(old(queue), ref), now + slaHours * 3_600_000)]
      ensures log == old(log) + [Opened(id, ref, Escalates(old(queue), ref), live)]
    {
      queue := queue - Unreviewed(queue, ref);
      var priorSubmissionCount := |Thread(queue, ref).Keys|;
      assert Thread(queue, ref).Keys == ReviewedOf(old(queue), ref);
      var escalated := priorSubmissionCount >= LIFETIME_RESUBMISSION_CAP;
      id := FreshId();
      queue := queue[id := NewEntry(ref, content, None, escalated, SlaDeadline(now, slaHours))];
      log := log + [Opened(id, ref, escalated, live)];
    }

    method RemoveQueueEntries(ref: Ref) returns (ok: bool)
      modifies this`queue
      ensures ok == !AuditsBlock(old(State().db), ref)
      ensures queue == if ok then old(queue) - Thread(old(queue), ref).Keys else old(queue)
    {
      if exists i :: 0 <= i < |audits| && audits[i].entry in queue && queue[audits[i].entry].ref == ref {
        return false;
      }
      queue := queue - Thread(queue, ref).Keys;
      return true;
    }

    /** The transaction of every `create`; a second review of a process is refused. */
    method Create(etype: EntityType, owner: Option<Person>, content: Content, flag: Option<FlagReason>, now: int,
                  at: Option<Id>) returns (created: Option<Ref>)
      modifies this
      ensures State() == Act(old(State()), Submit(etype, owner, content, flag, SlaDeadline(now, slaHours), at))
      ensures created == if Vacant(old(State().db), etype, at) then Some(Ref(etype, old(nextId))) else None
    {
      if etype == OverallReview && at.Some? && at.value in reviewAt {
        return None;
      }
      var eid := FreshId();
      var ref := Ref(etype, eid);
      entities := entities[ref := Entity(owner, content, Pending, None)];
      if etype == OverallReview && at.Some? {
        reviewAt := reviewAt[at.value := ref];
      }
      var _ := Enqueue(ref, content, flag, now);
      return Some(ref);
    }

    /** The transaction of `update` for what is found by its own id. */
    method Update(ref: Ref, content: Content, now: int) returns (entry: Option<Id>)
      modifies this
      ensures State() == Act(old(State()), Resubmit(ref, content, SlaDeadline(now, slaHours)))
      ensures entry == if ref in old(entities) then Some(old(nextId)) else None
    {
      if ref !in entities {
        return None;
      }
      entities := entities[ref := entities[ref].(content := content, status := Pending, verdict := None)];
      var id := Reenqueue(ref, content, now, true);
      entry := Some(id);
    }

    /** The same for an overall review: the row is found by its process, the queue is told about
        the review read earlier. */
    method UpdateReview(at: Id, seen: Ref, content: Content, now: int) returns (entry: Option<Id>)
      modifies this
      ensures State() == Act(old(State()),
          EditAction(old(State().db), seen, Some(at), content, SlaDeadline(now, slaHours)))
      ensures entry == if Landing(old(State().db), seen, Some(at)).Some? then Some(old(nextId)) else None
    {
      if at !in reviewAt || reviewAt[at] !in entities {
        return None;
      }
      var row := reviewAt[at];
      entities := entities[row := entities[row].(content := content, status := Pending, verdict := None)];
      var id := Reenqueue(seen, content, now, row == seen);
      entry := Some(id);
    }

    /** The transaction of `remove` by id: the queue entries first, then the entity. */
    method Delete(ref: Ref) returns (ok: bool)
      modifies this
      ensures State() == Act(old(State()), Remove(ref))
      ensures ok == CanRemove(old(State().db), ref)
    {
      var before := queue;
      ok := RemoveQueueEntries(ref);
      if ok && ref !in entities {
        queue := before;
        ok := false;
      }
      if ok {
        entities := entities - {ref};
        reviewAt := Vacated(reviewAt, ref);
      }
    }

    /** The same for an overall review: the entries of the review read earlier, then the row now
        at the process. */
    method DeleteReview(at: Id, seen: Ref) returns (ok: bool)
      modifies this
      ensures State() == Act(old(State()), DeleteAction(old(State().db), seen, Some(at)))
      ensures ok == (Landing(old(State().db), seen, Some(at)).Some? && !AuditsBlock(old(State().db), seen))
    {
      var before := queue;
      ok := RemoveQueueEntries(seen);
      if ok && (at !in reviewAt || reviewAt[at] !in entities) {
        queue := before;
        ok := false;
      }
      if ok {
        var row := reviewAt[at];
        entities := entities - {row};
        reviewAt := Vacated(reviewAt, row);
      }
    }

    /** The transaction inside `review()`. */
    method CommitReview(id: Id, ref: Ref, decision: Decision, status: Status, flag: Option<FlagReason>,
                        actor: Actor, audit: Option<AuditInput>) returns (ok: bool)
      modifies this
      ensures State() == Act(old(State()), Review(id, ref, decision, status, flag, actor, audit))
      ensures ok == ReviewWins(old(State().db), id, ref)
    {
      var before := queue;
      var count := 0;
      if id in queue && queue[id].decision.None? {
        var e := queue[id];
        queue := queue[id := e.(decision := Some(decision), flagReason := if flag.Some? then flag else e.flagReason)];
        count := 1;
      }
      if count == 0 {
        return false;
      }
      if ref !in entities {
        queue := before;
        return false;
      }
      entities := entities[ref := entities[ref].(status := status)];
      if audit.Some? {
        audits := audits + [Audit(id, audit.value)];
      }
      log := log + [Decided(id, queue[id].ref, decision, queue[id].escalated, actor)];
      return true;
    }

    method CommitClaim(id: Id, who: Person) returns (count: nat)
      modifies this`queue, this`log
      ensures State() == Act(old(State()), Claim(id, who))
      ensures count == if ClaimWins(old(State().db), id) then 1 else 0
    {
      count := 0;
      if id in queue && queue[id].decision.None? && queue[id].claimedBy.None? {
        queue := queue[id := queue[id].(claimedBy := Some(who))];
        log := log + [Claimed(id, who)];
        count := 1;
      }
    }

    method CommitRelease(id: Id, who: Person) returns (count: nat)
      modifies this`queue, this`log
      ensures State() == Act(old(State()), Release(id, who))
      ensures count == if ReleaseWins(old(State().db), id, who) then 1 else 0
    {
      count := 0;
      if id in queue && queue[id].claimedBy == Some(who) {
        queue := queue[id := queue[id].(claimedBy := None)];
        log := log + [Released(id, who)];
        count := 1;
      }
    }
  }
}
