/**
 What each service call does when nobody interrupts it, from any state: the exact tables it
 leaves, whichever of its checks fails on the way.
 */
module Undisturbed {
  import opened Wrappers
  import opened Queue
  import opened Lifecycle
  import opened History
  import opened Protocol
  import opened Solo

  /** A call arrives and takes `n` steps in a row. */
  function After(s: State, call: Call, env: Env, n: nat): State {
    Then(s, [Arrive(call)] + Turns(s, env, n))
  }

  /** A call whose steps before the last only read. */
  lemma Along(s: State, path: seq<Call>, env: Env)
    requires path != [] && MayArrive(s, path[0])
    requires NamedId(path[0]).Some? ==> NamedId(path[0]).value < s.core.db.nextId
    requires forall i :: 0 <= i < |path| - 1 ==> OnlyReads(s.core, path, i, env)
    requires FoundOk(s.core.db, path[|path| - 1], env)
    ensures After(s, path[0], env, |path|).core
            == Act(s.core, CallAction(s.core.db, path[|path| - 1], env))
  {
    hide OnlyReads, MayArrive, Act, CallAction, NextCall, FoundOk, Exec;
    SoloCommits(s, path, env);
  }

  // ---- submissions ----

  /** A submission appears pending, with its owner and an entry that carries its flag. */
  lemma SubmitAlone(s: State, etype: EntityType, owner: Option<Person>, content: Content, flag: Option<FlagReason>,
        at: Option<Id>, env: Env)
    requires (etype == Company || owner.Some?) && (at.Some? <==> etype == OverallReview)
    ensures var db, c' := s.core.db, Exec(s, SubmitNew(etype, owner, content, flag, at, env)).core;
      var ref := Ref(etype, db.nextId);
      c' == if at.Some? && at.value in db.reviewAt then s.core else
        Core(Db(db.entities[ref := Entity(owner, content, Pending, None)],
                db.queue[db.nextId + 1 :=
                  Entry(ref, content, flag, false, env.now + env.slaWindow, None, None, false, false)],
                db.audits, db.nextId + 2, if at.Some? then db.reviewAt[at.value := ref] else db.reviewAt),
             s.core.log + [Opened(db.nextId + 1, ref, false, true)])
  {
  }

  // ---- edits ----

  /** The tables after `ref` is rewritten. */
  function Rewritten(c: Core, ref: Ref, content: Content, deadline: int): Core
    requires ref in c.db.entities
  {
    var db, escalated := c.db, |ReviewedOf(c.db.queue, ref)| >= 3;
    Core(Db(db.entities[ref := Entity(db.entities[ref].owner, content, Pending, None)],
            (map id | id in db.queue && (db.queue[id].ref != ref || db.queue[id].decision.Some?) :: db.queue[id])
              [db.nextId := Entry(ref, content, None, escalated, deadline, None, None, false, false)],
            db.audits, db.nextId + 1, db.reviewAt),
         c.log + [Opened(db.nextId, ref, escalated, true)])
  }

  lemma ResubmitRewrites(c: Core, ref: Ref, content: Content, deadline: int)
    requires ref in c.db.entities
    ensures Act(c, Resubmit(ref, content, deadline)) == Rewritten(c, ref, content, deadline)
  {
    hide ReviewedOf;
    var q := c.db.queue - Unreviewed(c.db.queue, ref);
    assert q == map id | id in c.db.queue && (c.db.queue[id].ref != ref || c.db.queue[id].decision.Some?) ::
        c.db.queue[id];
  }

  /** Only the owner edits; a company until it is approved, anything else until it is permanently
      rejected. */
  predicate MayRewrite(db: Db, ref: Ref, who: Person) {
    && ref in db.entities && db.entities[ref].owner == Some(who)
    && db.entities[ref].status != if ref.etype == Company then Approved else PermanentlyRejected
  }

  lemma EditAlone(s: State, ref: Ref, who: Person, content: Content, env: Env)
    requires ref.etype != OverallReview
    ensures After(s, EditRead(ref, who, content), env, 2).core
            == if MayRewrite(s.core.db, ref, who) then Rewritten(s.core, ref, content, env.now + env.slaWindow)
               else s.core
  {
    var allowed := MayRewrite(s.core.db, ref, who);
    Along(s, [EditRead(ref, who, content), if allowed then EditCommit(ref, who, content, None) else Done], env);
    if allowed { ResubmitRewrites(s.core, ref, content, env.now + env.slaWindow); }
    hide After, Rewritten, EditTx;
  }

  /** An overall review is the one its process has. */
  lemma ReviewEditAlone(s: State, process: Id, who: Person, content: Content, env: Env)
    ensures var db := s.core.db;
      After(s, EditReadAt(process, who, content), env, 2).core
      == if process in db.reviewAt && MayRewrite(db, db.reviewAt[process], who)
         then Rewritten(s.core, db.reviewAt[process], content, env.now + env.slaWindow) else s.core
  {
    var db := s.core.db;
    var allowed := process in db.reviewAt && MayRewrite(db, db.reviewAt[process], who);
    Along(s, [EditReadAt(process, who, content),
              if allowed then EditCommit(db.reviewAt[process], who, content, Some(process)) else Done], env);
    if allowed { ResubmitRewrites(s.core, db.reviewAt[process], content, env.now + env.slaWindow); }
    hide After, Rewritten, EditTx;
  }

  // ---- deletes ----

  function Without(c: Core, ref: Ref): Core {
    c.(db := c.db.(entities := c.db.entities - {ref},
                   queue := map id | id in c.db.queue && c.db.queue[id].ref != ref :: c.db.queue[id],
                   reviewAt := map p | p in c.db.reviewAt && c.db.reviewAt[p] != ref :: c.db.reviewAt[p]))
  }

  lemma RemoveTakesAway(c: Core, ref: Ref)
    requires CanRemove(c.db, ref)
    ensures Act(c, Remove(ref)) == Without(c, ref)
  {
    assert c.db.queue - Thread(c.db.queue, ref).Keys
        == map id | id in c.db.queue && c.db.queue[id].ref != ref :: c.db.queue[id];
  }

  /** Only the owner deletes, and no entry may be one an audit row documents. */
  predicate MayDelete(db: Db, ref: Ref, who: Person) {
    && ref in db.entities && db.entities[ref].owner == Some(who)
    && forall i :: 0 <= i < |db.audits| ==> !(db.audits[i].entry in db.queue && db.queue[db.audits[i].entry].ref == ref)
  }

  lemma DeleteAlone(s: State, ref: Ref, who: Person, env: Env)
    requires ref.etype != Company && ref.etype != OverallReview
    ensures After(s, DeleteRead(ref, who), env, 2).core
            == if MayDelete(s.core.db, ref, who) then Without(s.core, ref) else s.core
  {
    var db := s.core.db;
    var owned := ref in db.entities && db.entities[ref].owner == Some(who);
    Along(s, [DeleteRead(ref, who), if owned then DeleteCommit(ref, who, None) else Done], env);
    if MayDelete(db, ref, who) { RemoveTakesAway(s.core, ref); }
    hide After, Without, RemoveTx;
  }

  lemma ReviewDeleteAlone(s: State, process: Id, who: Person, env: Env)
    ensures var db := s.core.db;
      After(s, DeleteReadAt(process, who), env, 2).core
      == if process in db.reviewAt && MayDelete(db, db.reviewAt[process], who)
         then Without(s.core, db.reviewAt[process]) else s.core
  {
    var db := s.core.db;
    var found := ReviewAt(db, process);
    var owned := found.Some? && found.value in db.entities && db.entities[found.value].owner == Some(who);
    Along(s, [DeleteReadAt(process, who), if owned then DeleteCommit(found.value, who, Some(process)) else Done], env);
    if found.Some? && MayDelete(db, found.value, who) { RemoveTakesAway(s.core, found.value); }
    hide After, Without, RemoveTx;
  }

  // ---- decisions ----

  /** Approve and reject enter at the guard, flag behind it. */
  function EntryPoint(req: Request): Call {
    if req.decision == Flag then ReviewRead(req) else Guard(req)
  }

  predicate Barred(db: Db, req: Request) {
    req.decision != Flag && req.id in db.queue && db.queue[req.id].escalated && !req.actor.Admin?
  }

  predicate Open(db: Db, id: Id) {
    id in db.queue && db.queue[id].decision.None?
  }

  function RulingPath(db: Db, req: Request): seq<Call> {
    var last := if !Open(db, req.id) || Barred(db, req) then Done
      else if db.queue[req.id].ref in db.entities then ReviewCommit(req, db.queue[req.id]) else StaleDelete(req.id);
    if Barred(db, req) then [Guard(req), Done, Done, Done] else
    (if req.decision == Flag then [] else [Guard(req)]) +
      [ReviewRead(req), if Open(db, req.id) then EntityCheck(req, db.queue[req.id]) else Done, last]
  }

  lemma RulingReadsOn(s: State, req: Request, env: Env)
    ensures var path := RulingPath(s.core.db, req);
      forall i :: 0 <= i < |path| - 1 ==> OnlyReads(s.core, path, i, env)
  {
  }

  function StatusAfter(req: Request, escalated: bool): Status {
    match req.decision
    case Approve => Approved
    case Flag => Flagged
    case Reject => if escalated then PermanentlyRejected else Rejected
  }

  /** The tables after entry `req.id` is decided. */
  function Ruled(c: Core, req: Request): Core
    requires Open(c.db, req.id) && c.db.queue[req.id].ref in c.db.entities
  {
    var db, e := c.db, c.db.queue[req.id];
    Core(db.(entities := db.entities[e.ref := db.entities[e.ref].(status := StatusAfter(req, e.escalated))],
             queue := db.queue[req.id := e.(decision := Some(req.decision),
                                            flagReason := if req.flag.Some? then req.flag else e.flagReason)]),
         c.log + [Decided(req.id, e.ref, req.decision, e.escalated, req.actor)])
  }

  /** A moderator's request decides exactly an open entry, of an entity that is there, that is not
      escalated, unless the moderator is an admin or only flags. An open entry whose entity is
      gone is deleted. */
  lemma RulingAlone(s: State, req: Request, env: Env)
    requires MayArrive(s, EntryPoint(req)) && req.id < s.core.db.nextId
    ensures var db, c' := s.core.db, After(s, EntryPoint(req), env, if req.decision == Flag then 3 else 4).core;
      if !Open(db, req.id) || Barred(db, req) then c' == s.core
      else if db.queue[req.id].ref in db.entities then c' == Ruled(s.core, req)
      else c' == if Audited(db, req.id) then s.core else s.core.(db := db.(queue := db.queue - {req.id}))
  {
    RulingReadsOn(s, req, env);
    Along(s, RulingPath(s.core.db, req), env);
    hide After, OnlyReads;
  }

  // ---- claims and releases ----

  lemma ClaimAlone(s: State, id: Id, who: Person, env: Env)
    requires id < s.core.db.nextId
    ensures var db := s.core.db;
      After(s, ClaimRead(id, who), env, 2).core
      == if Open(db, id) && db.queue[id].claimedBy.None? then
           Core(db.(queue := db.queue[id := db.queue[id].(claimedBy := Some(who))]), s.core.log + [Claimed(id, who)])
         else s.core
  {
    Along(s, [ClaimRead(id, who), if ClaimWins(s.core.db, id) then ClaimCommit(id, who) else Done], env);
    hide After;
  }

  lemma ReleaseAlone(s: State, id: Id, who: Person, env: Env)
    requires id < s.core.db.nextId
    ensures var db := s.core.db;
      After(s, ReleaseRead(id, who), env, 2).core
      == if id in db.queue && db.queue[id].claimedBy == Some(who) then
           Core(db.(queue := db.queue[id := db.queue[id].(claimedBy := None)]), s.core.log + [Released(id, who)])
         else s.core
  {
    Along(s, [ReleaseRead(id, who), if ReleaseWins(s.core.db, id, who) then ReleaseCommit(id, who) else Done], env);
    hide After;
  }

  // ---- the sweeps ----

  function OrphanPath(db: Db, id: Id): seq<Call> {
    if !Open(db, id) then [OrphanRead(id), Done, Done]
    else if db.queue[id].ref in db.entities then [OrphanRead(id), OrphanFetch(id, db.queue[id]), Done]
    else [OrphanRead(id), OrphanFetch(id, db.queue[id]), StaleDelete(id)]
  }

  lemma OrphanReads(core: Core, id: Id, env: Env)
    ensures var path := OrphanPath(core.db, id);
      OnlyReads(core, path, 0, env) && OnlyReads(core, path, 1, env) && FoundOk(core.db, path[2], env)
  {
  }

  /** The orphan check of the queue view deletes exactly an open entry whose entity is gone. */
  lemma OrphanAlone(s: State, id: Id, env: Env)
    requires id < s.core.db.nextId
    ensures var db := s.core.db;
      After(s, OrphanRead(id), env, 3).core
      == if Open(db, id) && db.queue[id].ref !in db.entities && !Audited(db, id)
         then s.core.(db := db.(queue := db.queue - {id})) else s.core
  {
    OrphanReads(s.core, id, env);
    hide After, OnlyReads, FoundOk, NextCall;
    Along(s, OrphanPath(s.core.db, id), env);
  }

  lemma Reads(s: State, s0: State, path: seq<Call>, i: nat, env: Env)
    requires i + 1 < |path| && At(s, s0, s.core, path[i]) && OnlyReads(s.core, path, i, env)
    ensures var s' := Exec(s, Advance(|s0.calls|, env));
      && s'.core == s.core && At(s', s0, s.core, path[i + 1])
      && s'.outbox == s.outbox + Emitted(s.core.db, path[i])
  {
    SkipDoesNothing(s.core);
    Writes(s, s0, path[i], env);
    Moves(s, s0, s.core, path[i], env);
    var s' := Exec(s, Advance(|s0.calls|, env));
    hide Exec, Emitted, Act;
    assert At(s', s0, s.core, path[i + 1]);
  }

  lemma Writes(s: State, s0: State, call: Call, env: Env)
    requires At(s, s0, s.core, call) && FoundOk(s.core.db, call, env)
    ensures var s' := Exec(s, Advance(|s0.calls|, env));
      && s'.core == Act(s.core, CallAction(s.core.db, call, env))
      && s'.outbox == s.outbox + Emitted(s.core.db, call)
  {
    hide Act, NextCall, CallAction, Emitted;
  }

  lemma ThreeTurns(s: State, call: Call, env: Env)
    ensures var a := Advance(|s.calls|, env);
      After(s, call, env, 3) == Exec(Exec(Exec(Exec(s, Arrive(call)), a), a), a)
  {
    hide Exec;
    var a, enter := Advance(|s.calls|, env), Arrive(call);
    assert [enter] + Turns(s, env, 3) == [enter, a, a, a];
    assert [enter, a, a, a][..3] == [enter, a, a] && [enter, a, a][..2] == [enter, a];
    assert [enter, a][..1] == [enter] && [enter][..0] == [];
    assert Then(s, [enter]) == Exec(s, enter);
    assert Then(s, [enter, a]) == Exec(Exec(s, enter), a);
    assert Then(s, [enter, a, a]) == Exec(Exec(Exec(s, enter), a), a);
  }

  /** Two reads and a write. */
  lemma ThreeSteps(s: State, path: seq<Call>, env: Env)
    requires |path| == 3 && MayArrive(s, path[0])
    requires NamedId(path[0]).Some? ==> NamedId(path[0]).value < s.core.db.nextId
    requires OnlyReads(s.core, path, 0, env) && OnlyReads(s.core, path, 1, env) && FoundOk(s.core.db, path[2], env)
    ensures var s' := After(s, path[0], env, 3);
      && s'.core == Act(s.core, CallAction(s.core.db, path[2], env))
      && s'.outbox == s.outbox + Emitted(s.core.db, path[0]) + Emitted(s.core.db, path[1])
          + Emitted(s.core.db, path[2])
  {
    ThreeTurns(s, path[0], env);
    Solo.Enters(s, path[0]);
    var s1 := Exec(s, Arrive(path[0]));
    assert s1.outbox == s.outbox;
    hide Exec, Act, NextCall, CallAction, Emitted, OnlyReads, FoundOk, MayArrive, After;
    Reads(s1, s, path, 0, env);
    Reads(Exec(s1, Advance(|s.calls|, env)), s, path, 1, env);
    Writes(Exec(Exec(s1, Advance(|s.calls|, env)), Advance(|s.calls|, env)), s, path[2], env);
  }

  /** Past its deadline, or unclaimed and in the last quarter of the window before it. */
  predicate Alarming(e: Entry, breach: bool, env: Env) {
    && e.decision.None?
    && if breach then !e.breached && e.slaDeadline < env.now
       else !e.warned && e.claimedBy.None? && env.now < e.slaDeadline
            && e.slaDeadline as real <= env.now as real + 0.25 * env.slaWindow as real
  }

  lemma AlarmingIsDue(e: Entry, breach: bool, env: Env)
    ensures Alarming(e, breach, env) <==> SlaDue(e, breach, env)
  {
  }

  function AlertPath(db: Db, id: Id, breach: bool, env: Env): seq<Call> {
    if id in db.queue && SlaDue(db.queue[id], breach, env) then
      [SlaFind(id, breach), SlaPublish(id, breach), SlaStamp(id, breach)]
    else [SlaFind(id, breach), Done, Done]
  }

  lemma AlertReads(core: Core, id: Id, breach: bool, env: Env)
    ensures var path := AlertPath(core.db, id, breach, env);
      OnlyReads(core, path, 0, env) && OnlyReads(core, path, 1, env) && FoundOk(core.db, path[2], env)
  {
    hide SlaDue;
  }

  lemma AlertWrites(c: Core, id: Id, breach: bool, env: Env)
    ensures var path := AlertPath(c.db, id, breach, env);
      && Emitted(c.db, path[0]) + Emitted(c.db, path[1]) + Emitted(c.db, path[2])
         == Emitted(c.db, path[1])
      && Emitted(c.db, path[1])
         == (if path[1].SlaPublish? then [if breach then SlaBreach(id) else SlaWarning(id)] else [])
      && Act(c, CallAction(c.db, path[2], env))
         == if !path[1].SlaPublish? then c else c.(db := c.db.(queue := c.db.queue[id :=
              if breach then c.db.queue[id].(breached := true) else c.db.queue[id].(warned := true)]))
  {
    hide SlaDue;
  }

  /** The alert sweep publishes one alert about exactly an alarming entry and stamps it. */
  lemma AlertAlone(s: State, id: Id, breach: bool, env: Env)
    requires id < s.core.db.nextId
    ensures var db, s' := s.core.db, After(s, SlaFind(id, breach), env, 3);
      if id in db.queue && Alarming(db.queue[id], breach, env) then
        && s'.outbox == s.outbox + [if breach then SlaBreach(id) else SlaWarning(id)]
        && s'.core == s.core.(db := db.(queue := db.queue[id :=
             if breach then db.queue[id].(breached := true) else db.queue[id].(warned := true)]))
      else s'.outbox == s.outbox && s'.core == s.core
  {
    var db := s.core.db;
    if id in db.queue { AlarmingIsDue(db.queue[id], breach, env); }
    AlertReads(s.core, id, breach, env);
    hide Alarming, SlaDue, OnlyReads, After, FoundOk, NextCall;
    ThreeSteps(s, AlertPath(db, id, breach, env), env);
    AlertWrites(s.core, id, breach, env);
    hide CallAction, Act, Emitted, AlertPath;
  }
}
