/**
 Runs continued from a state, and calls that run undisturbed from one: the building blocks of
 the continuations that exhibit a failure.
 */
module Solo {
  import opened Wrappers
  import opened Queue
  import opened Protocol

  /** The state after `steps` more. */
  function Then(s: State, steps: seq<Step>): State {
    if steps == [] then s else Exec(Then(s, steps[..|steps| - 1]), steps[|steps| - 1])
  }

  lemma {:induction false} RunThen(past: seq<Step>, future: seq<Step>)
    ensures Run(past + future) == Then(Run(past), future)
  {
    if future == [] {
      assert past + future == past;
    } else {
      RunThen(past, future[..|future| - 1]);
      assert (past + future)[..|past + future| - 1] == past + future[..|future| - 1];
    }
  }

  lemma {:induction false} ThenThen(s: State, a: seq<Step>, b: seq<Step>)
    ensures Then(s, a + b) == Then(Then(s, a), b)
  {
    if b == [] {
      assert a + b == a;
    } else {
      ThenThen(s, a, b[..|b| - 1]);
      assert (a + b)[..|a + b| - 1] == a + b[..|b| - 1];
    }
  }

  /** One more call stands at `call`; the other calls are those of `s0`. */
  predicate At(s: State, s0: State, core: Core, call: Call) {
    s.core == core && s.calls == s0.calls + [call]
  }

  /** The newest call takes `n` steps in a row. */
  function Turns(s0: State, env: Env, n: nat): seq<Step> {
    seq(n, _ => Advance(|s0.calls|, env))
  }

  lemma Enters(s0: State, call: Call)
    requires MayArrive(s0, call) && (NamedId(call).Some? ==> NamedId(call).value < s0.core.db.nextId)
    ensures At(Exec(s0, Arrive(call)), s0, s0.core, call)
  {
  }

  lemma Moves(s: State, s0: State, core: Core, call: Call, env: Env)
    requires At(s, s0, core, call) && FoundOk(core.db, call, env)
    ensures At(Exec(s, Advance(|s0.calls|, env)), s0,
               Act(core, CallAction(core.db, call, env)), NextCall(core.db, call, env))
  {
  }

  /** The call at `path[i]` only reads, and goes on to `path[i + 1]`. */
  predicate OnlyReads(core: Core, path: seq<Call>, i: nat, env: Env)
    requires i + 1 < |path|
  {
    && FoundOk(core.db, path[i], env)
    && CallAction(core.db, path[i], env) == Skip
    && NextCall(core.db, path[i], env) == path[i + 1]
  }

  lemma {:induction false} QuietPath(s: State, s0: State, core: Core, path: seq<Call>, env: Env, n: nat)
    requires n < |path| && At(s, s0, core, path[0])
    requires forall i :: 0 <= i < n ==> OnlyReads(core, path, i, env)
    ensures At(Then(s, Turns(s0, env, n)), s0, core, path[n])
  {
    if n > 0 {
      QuietPath(s, s0, core, path, env, n - 1);
      assert Turns(s0, env, n)[..n - 1] == Turns(s0, env, n - 1);
      hide Exec, OnlyReads;
      assert OnlyReads(core, path, n - 1, env);
    }
  }

  lemma SkipDoesNothing(core: Core)
    ensures Act(core, Skip) == core
  {
  }

  function Begun(s0: State, path: seq<Call>, env: Env): seq<Step>
    requires path != []
  {
    [Arrive(path[0])] + Turns(s0, env, |path| - 1)
  }

  /** Along `path` the call enters, reads, and takes its last step, which writes. */
  function Solo(s0: State, path: seq<Call>, env: Env): seq<Step>
    requires path != []
  {
    [Arrive(path[0])] + Turns(s0, env, |path|)
  }

  lemma SoloIsOneMore(s0: State, path: seq<Call>, env: Env)
    requires path != []
    ensures Then(s0, Solo(s0, path, env)) == Exec(Then(s0, Begun(s0, path, env)), Advance(|s0.calls|, env))
  {
    var solo := Solo(s0, path, env);
    assert solo[..|solo| - 1] == Begun(s0, path, env);
  }

  lemma SoloCommits(s0: State, path: seq<Call>, env: Env)
    requires path != [] && MayArrive(s0, path[0])
        && (NamedId(path[0]).Some? ==> NamedId(path[0]).value < s0.core.db.nextId)
    requires forall i :: 0 <= i < |path| - 1 ==> OnlyReads(s0.core, path, i, env)
    requires FoundOk(s0.core.db, path[|path| - 1], env)
    ensures var last := path[|path| - 1];
      At(Then(s0, Solo(s0, path, env)), s0,
         Act(s0.core, CallAction(s0.core.db, last, env)), NextCall(s0.core.db, last, env))
  {
    hide Exec, Act, OnlyReads, FoundOk, CallAction, NextCall;
    SoloBegins(s0, path, env);
    SoloIsOneMore(s0, path, env);
    Moves(Then(s0, Begun(s0, path, env)), s0, s0.core, path[|path| - 1], env);
  }

  /** The same, stopping just before the last step. */
  lemma SoloBegins(s0: State, path: seq<Call>, env: Env)
    requires path != [] && MayArrive(s0, path[0])
        && (NamedId(path[0]).Some? ==> NamedId(path[0]).value < s0.core.db.nextId)
    requires forall i :: 0 <= i < |path| - 1 ==> OnlyReads(s0.core, path, i, env)
    ensures At(Then(s0, Begun(s0, path, env)), s0, s0.core, path[|path| - 1])
  {
    hide OnlyReads, FoundOk, CallAction, NextCall, MayArrive, Act;
    Enters(s0, path[0]);
    var entered := [Arrive(path[0])];
    assert entered[..0] == [];
    QuietPath(Exec(s0, Arrive(path[0])), s0, s0.core, path, env, |path| - 1);
    ThenThen(s0, entered, Turns(s0, env, |path| - 1));
  }

  // ---- a decision ----

  const NOW := Env(0, 0, None)

  function RulingPath(n: Id, seen: Entry, d: Decision, actor: Actor): seq<Call> {
    var req := Request(n, d, None, actor, None);
    (if d == Flag then [] else [Guard(req)]) + [ReviewRead(req), EntityCheck(req, seen), ReviewCommit(req, seen)]
  }

  predicate CanRule(db: Db, n: Id, ref: Ref, d: Decision, actor: Actor) {
    && n in db.queue && n < db.nextId && db.queue[n].ref == ref && db.queue[n].decision.None? && ref in db.entities
    && (actor.Moderator? || actor.Admin?) && (db.queue[n].escalated && d != Flag ==> actor.Admin?)
  }

  lemma RulingReads(s0: State, n: Id, ref: Ref, d: Decision, actor: Actor)
    requires CanRule(s0.core.db, n, ref, d, actor)
    ensures var path := RulingPath(n, s0.core.db.queue[n], d, actor);
      && MayArrive(s0, path[0]) && NamedId(path[0]) == Some(n)
      && forall i :: 0 <= i < |path| - 1 ==> OnlyReads(s0.core, path, i, NOW)
  {
  }

  /** A moderator decides entry `n` with nobody in between. */
  lemma Ruling(s0: State, n: Id, ref: Ref, d: Decision, actor: Actor) returns (steps: seq<Step>)
    requires CanRule(s0.core.db, n, ref, d, actor)
    ensures var seen := s0.core.db.queue[n]; var status := Outcome(d, seen.escalated);
      At(Then(s0, steps), s0, Act(s0.core, Review(n, ref, d, status, None, actor, None)), Announce(ref, n, status))
  {
    var path := RulingPath(n, s0.core.db.queue[n], d, actor);
    RulingReads(s0, n, ref, d, actor);
    hide OnlyReads, Act;
    steps := Solo(s0, path, NOW);
    SoloCommits(s0, path, NOW);
  }

  // ---- an edit and a delete ----

  /** The request that names the entity: by its process for an overall review. */
  function EditRequest(ref: Ref, at: Option<Id>, who: Person, content: Content): Call {
    if at.Some? then EditReadAt(at.value, who, content) else EditRead(ref, who, content)
  }

  function DeleteRequest(ref: Ref, at: Option<Id>, who: Person): Call {
    if at.Some? then DeleteReadAt(at.value, who) else DeleteRead(ref, who)
  }

  /** `ref` is what a request at `at` would find. */
  predicate Found(db: Db, ref: Ref, at: Option<Id>) {
    && ref in db.entities && (at.Some? <==> ref.etype == OverallReview)
    && (at.Some? ==> at.value in db.reviewAt && db.reviewAt[at.value] == ref)
  }

  lemma EditReads(s0: State, ref: Ref, at: Option<Id>, who: Person, content: Content)
    requires Found(s0.core.db, ref, at) && EditAllowed(ref, s0.core.db.entities[ref], who)
    ensures var path := [EditRequest(ref, at, who, content), EditCommit(ref, who, content, at)];
      MayArrive(s0, path[0]) && NamedId(path[0]).None? && OnlyReads(s0.core, path, 0, NOW)
    ensures FoundOk(s0.core.db, EditCommit(ref, who, content, at), NOW)
      && CallAction(s0.core.db, EditCommit(ref, who, content, at), NOW) == Resubmit(ref, content, 0)
  {
  }

  /** An edit passes its checks and stops there. */
  lemma EditBegins(s0: State, ref: Ref, at: Option<Id>, who: Person, content: Content) returns (steps: seq<Step>)
    requires Found(s0.core.db, ref, at) && EditAllowed(ref, s0.core.db.entities[ref], who)
    ensures At(Then(s0, steps), s0, s0.core, EditCommit(ref, who, content, at))
  {
    var path := [EditRequest(ref, at, who, content), EditCommit(ref, who, content, at)];
    EditReads(s0, ref, at, who, content);
    hide OnlyReads;
    steps := Begun(s0, path, NOW);
    SoloBegins(s0, path, NOW);
  }

  lemma Edit(s0: State, ref: Ref, at: Option<Id>, who: Person, content: Content) returns (steps: seq<Step>)
    requires Found(s0.core.db, ref, at) && EditAllowed(ref, s0.core.db.entities[ref], who)
    ensures At(Then(s0, steps), s0, Act(s0.core, Resubmit(ref, content, 0)),
               NextCall(s0.core.db, EditCommit(ref, who, content, at), NOW))
  {
    var path := [EditRequest(ref, at, who, content), EditCommit(ref, who, content, at)];
    EditReads(s0, ref, at, who, content);
    hide OnlyReads, Act, NextCall, EditAllowed, MayArrive, CallAction, FoundOk;
    steps := Solo(s0, path, NOW);
    SoloCommits(s0, path, NOW);
  }

  lemma DeleteReads(s0: State, ref: Ref, at: Option<Id>, who: Person)
    requires Found(s0.core.db, ref, at) && ref.etype != Company && s0.core.db.entities[ref].owner == Some(who)
    ensures var path := [DeleteRequest(ref, at, who), DeleteCommit(ref, who, at)];
      MayArrive(s0, path[0]) && NamedId(path[0]).None? && OnlyReads(s0.core, path, 0, NOW)
  {
  }

  lemma DeleteBegins(s0: State, ref: Ref, at: Option<Id>, who: Person) returns (steps: seq<Step>)
    requires Found(s0.core.db, ref, at) && ref.etype != Company && s0.core.db.entities[ref].owner == Some(who)
    ensures At(Then(s0, steps), s0, s0.core, DeleteCommit(ref, who, at))
  {
    var path := [DeleteRequest(ref, at, who), DeleteCommit(ref, who, at)];
    DeleteReads(s0, ref, at, who);
    hide OnlyReads;
    steps := Begun(s0, path, NOW);
    SoloBegins(s0, path, NOW);
  }

  lemma Delete(s0: State, ref: Ref, at: Option<Id>, who: Person) returns (steps: seq<Step>)
    requires Found(s0.core.db, ref, at) && ref.etype != Company && s0.core.db.entities[ref].owner == Some(who)
    ensures At(Then(s0, steps), s0, Act(s0.core, Remove(ref)), Done)
  {
    var path := [DeleteRequest(ref, at, who), DeleteCommit(ref, who, at)];
    DeleteReads(s0, ref, at, who);
    hide OnlyReads, Act;
    steps := Solo(s0, path, NOW);
    SoloCommits(s0, path, NOW);
  }

  /** An older call takes one step. */
  lemma OneMove(s: State, c: nat, env: Env)
    requires c < |s.calls| && FoundOk(s.core.db, s.calls[c], env)
    ensures Then(s, [Advance(c, env)]).core == Act(s.core, CallAction(s.core.db, s.calls[c], env))
  {
    assert [Advance(c, env)][..0] == [];
    hide Act;
  }
}
