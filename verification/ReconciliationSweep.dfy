/**
 The hourly sweep that resends what the event bus lost. A mail about a reviewed entry carries
 the entity's current status, which is the outcome of its newest entry. A send that throws ends
 the sweep it belongs to.
 */
module ReconciliationSweep {
  import opened Wrappers
  import opened Queue
  import opened DedupKeys
  import opened Lifecycle
  import opened Protocol
  import opened ProtocolInv

  datatype Mail = Mail(subject: Subject, to: Person, status: Option<Status>)

  /** The mail a reviewed entry calls for, if its entity, status and candidate allow one. */
  function DecisionMail(db: Db, addresses: set<Person>, id: Id): Option<Mail> {
    if id !in db.queue || db.queue[id].ref.etype == Company then None else
    var ref := db.queue[id].ref;
    if ref !in db.entities || db.entities[ref].status !in {Approved, Rejected} then None else
    var e := db.entities[ref];
    if e.owner.Some? && e.owner.value in addresses
    then Some(Mail(Decision(ref, id), e.owner.value, Some(e.status))) else None
  }

  function CreationMail(db: Db, addresses: set<Person>, ref: Ref): Option<Mail> {
    if ref !in db.entities then None else
    var e := db.entities[ref];
    if e.owner.Some? && e.owner.value in addresses then Some(Mail(Submission(ref), e.owner.value, None)) else None
  }

  function DecisionsDue(db: Db, addresses: set<Person>, stale: seq<Id>): seq<Option<Mail>> {
    seq(|stale|, i requires 0 <= i < |stale| => DecisionMail(db, addresses, stale[i]))
  }

  function CreationsDue(db: Db, addresses: set<Person>, rows: seq<Ref>): seq<Option<Mail>> {
    seq(|rows|, i requires 0 <= i < |rows| => CreationMail(db, addresses, rows[i]))
  }

  /** The mails still missing from the log, in sweep order, each counted once. */
  function Missed(due: seq<Option<Mail>>, log: set<Key>): seq<Mail> {
    if due == [] then []
    else if due[0].Some? && KeyOf(due[0].value.subject) !in log then
      [due[0].value] + Missed(due[1..], log + {KeyOf(due[0].value.subject)})
    else Missed(due[1..], log)
  }

  function KeysOf(mails: seq<Mail>): set<Key> {
    set m | m in mails :: KeyOf(m.subject)
  }

  /** The mails before the first whose send throws. */
  function Deliverable(mails: seq<Mail>, down: set<Mail>): seq<Mail> {
    if mails == [] || mails[0] in down then [] else [mails[0]] + Deliverable(mails[1..], down)
  }

  class Sweeper {
    var log: set<Key>
    var sent: seq<Mail>

    constructor (log: set<Key>)
      ensures this.log == log && sent == []
    {
      this.log, sent := log, [];
    }

    /** `reconcileStatusChanged` and `reconcileCreated`: look the key up, send, record. A send
        of a mail in `down` throws. */
    method Reconcile(mail: Option<Mail>, down: set<Mail>) returns (threw: bool)
      modifies this
      ensures var missed := Missed([mail], old(log));
        && threw == (Deliverable(missed, down) != missed)
        && sent == old(sent) + Deliverable(missed, down)
        && log == old(log) + KeysOf(Deliverable(missed, down))
    {
      hide KeyOf;
      threw := false;
      assert KeysOf([]) == {};
      if mail.None? {
        return;
      }
      var key := KeyOf(mail.value.subject);
      if key in log {
        return;
      }
      assert Missed([mail], old(log)) == [mail.value];
      if mail.value in down {
        return true;
      }
      sent := sent + [mail.value];
      log := log + {key};
      assert Deliverable([mail.value], down) == [mail.value];
    }

    /** One of the two halves: each row in turn, until a send throws. */
    method ReconcileAll(due: seq<Option<Mail>>, down: set<Mail>) returns (threw: bool)
      modifies this
      ensures var missed := Missed(due, old(log));
        && threw == (Deliverable(missed, down) != missed)
        && sent == old(sent) + Deliverable(missed, down)
        && log == old(log) + KeysOf(Deliverable(missed, down))
    {
      hide KeyOf, KeysOf, Missed, Deliverable;
      NothingMissed(log, down);
      threw := false;
      for i := 0 to |due|
        invariant !threw && Deliverable(Missed(due[..i], old(log)), down) == Missed(due[..i], old(log))
        invariant sent == old(sent) + Missed(due[..i], old(log))
        invariant log == old(log) + KeysOf(Missed(due[..i], old(log)))
      {
        var missed, here := Missed(due[..i], old(log)), Missed([due[i]], log);
        MissedConcat(due[..i], [due[i]], old(log));
        assert due[..i + 1] == due[..i] + [due[i]];
        DeliverableConcat(missed, here, down);
        threw := Reconcile(due[i], down);
        if threw {
          MissedConcat(due[..i + 1], due[i + 1..], old(log));
          assert due == due[..i + 1] + due[i + 1..];
          DeliverableConcat(missed + here, Missed(due[i + 1..], old(log) + KeysOf(missed + here)), down);
          assert Deliverable(missed + here, down) + [] == Deliverable(missed + here, down);
          return;
        }
      }
      assert due[..|due|] == due;
    }

    /** `sweep`: the reviewed entries first, then the entities created in the window. */
    method Sweep(db: Db, addresses: set<Person>, stale: seq<Id>, created: seq<Ref>, down: set<Mail>)
      returns (threw: bool)
      modifies this
      ensures var missed := Missed(DecisionsDue(db, addresses, stale) + CreationsDue(db, addresses, created), old(log));
        && threw == (Deliverable(missed, down) != missed)
        && sent == old(sent) + Deliverable(missed, down)
        && log == old(log) + KeysOf(Deliverable(missed, down))
      ensures !threw ==> log == LogOf(db, addresses, stale, created, old(log))
    {
      hide DecisionsDue, CreationsDue, Missed, KeysOf, Deliverable, KeyOf;
      ghost var decisions, creations := DecisionsDue(db, addresses, stale), CreationsDue(db, addresses, created);
      ghost var first := Missed(decisions, log);
      ghost var second := Missed(creations, log + KeysOf(first));
      MissedConcat(decisions, creations, log);
      DeliverableConcat(first, second, down);
      threw := ReconcileAll(DecisionsDue(db, addresses, stale), down);
      if threw {
        return;
      }
      threw := ReconcileAll(CreationsDue(db, addresses, created), down);
    }
  }

  lemma NothingMissed(log: set<Key>, down: set<Mail>)
    ensures Missed([], log) == [] && KeysOf([]) == {} && Deliverable([], down) == []
  {
  }

  lemma KeysConcat(ms: seq<Mail>, more: seq<Mail>)
    ensures KeysOf(ms + more) == KeysOf(ms) + KeysOf(more)
  {
    hide KeyOf;
  }

  lemma DeliverableConcat(ms: seq<Mail>, more: seq<Mail>, down: set<Mail>)
    ensures IsPrefix(Deliverable(ms, down), ms)
    ensures var all, first := Deliverable(ms + more, down), Deliverable(ms, down);
      if first == ms then
        && all == ms + Deliverable(more, down)
        && KeysOf(all) == KeysOf(ms) + KeysOf(Deliverable(more, down))
        && (all == ms + more <==> Deliverable(more, down) == more)
      else all == first && all != ms + more
  {
    hide KeyOf, KeysOf, Deliverable;
    DeliverableSplits(ms, more, down);
    DeliverableIsPrefix(ms, down);
    KeysConcat(ms, Deliverable(more, down));
    if ms + Deliverable(more, down) == ms + more { SameTail(ms, Deliverable(more, down), more); }
  }

  lemma SameTail<T>(xs: seq<T>, ys: seq<T>, zs: seq<T>)
    requires xs + ys == xs + zs
    ensures ys == zs
  {
    assert ys == (xs + ys)[|xs|..] && zs == (xs + zs)[|xs|..];
  }

  predicate IsPrefix<T(==)>(xs: seq<T>, ys: seq<T>) {
    |xs| <= |ys| && xs == ys[..|xs|]
  }

  lemma {:induction false} DeliverableSplits(ms: seq<Mail>, more: seq<Mail>, down: set<Mail>)
    ensures Deliverable(ms + more, down)
            == if Deliverable(ms, down) == ms then ms + Deliverable(more, down) else Deliverable(ms, down)
  {
    if ms == [] {
      assert ms + more == more;
    } else {
      var head, tail := ms[0], ms[1..];
      DeliverableSplits(tail, more, down);
      Unfolded(head, tail, down);
      Unfolded(head, tail + more, down);
      hide Deliverable;
      Regroup(head, tail, more, ms);
      Regroup(head, tail, Deliverable(more, down), ms);
      if head !in down && [head] + Deliverable(tail, down) == ms { SameTail([head], Deliverable(tail, down), tail); }
    }
  }

  lemma {:induction false} DeliverableIsPrefix(ms: seq<Mail>, down: set<Mail>)
    ensures IsPrefix(Deliverable(ms, down), ms)
  {
    if ms != [] && ms[0] !in down {
      DeliverableIsPrefix(ms[1..], down);
      hide Deliverable;
      var d := Deliverable(ms[1..], down);
      assert ms[..|d| + 1] == [ms[0]] + ms[1..][..|d|];
    }
  }

  lemma Unfolded(head: Mail, tail: seq<Mail>, down: set<Mail>)
    ensures Deliverable([head] + tail, down) == if head in down then [] else [head] + Deliverable(tail, down)
  {
    assert ([head] + tail)[1..] == tail;
  }

  lemma Regroup<T>(head: T, tail: seq<T>, more: seq<T>, all: seq<T>)
    requires all != [] && head == all[0] && tail == all[1..]
    ensures all == [head] + tail && all + more == [head] + (tail + more)
  {
  }

  lemma {:induction false} MissedConcat(due: seq<Option<Mail>>, more: seq<Option<Mail>>, log: set<Key>)
    ensures Missed(due + more, log) == Missed(due, log) + Missed(more, log + KeysOf(Missed(due, log)))
    ensures KeysOf(Missed(due + more, log))
            == KeysOf(Missed(due, log)) + KeysOf(Missed(more, log + KeysOf(Missed(due, log))))
    decreases |due|
  {
    hide KeyOf, KeysOf;
    if due == [] {
      assert due + more == more;
      NothingMissed(log, {});
      assert log + {} == log;
    } else {
      assert (due + more)[1..] == due[1..] + more;
      if due[0].Some? && KeyOf(due[0].value.subject) !in log {
        var m := due[0].value;
        var log' := log + {KeyOf(m.subject)};
        MissedConcat(due[1..], more, log');
        KeysConcat([m], Missed(due[1..], log'));
        KeysOfOne(m);
        assert log' + KeysOf(Missed(due[1..], log')) == log + KeysOf(Missed(due, log));
      } else {
        MissedConcat(due[1..], more, log);
      }
    }
    KeysConcat(Missed(due, log), Missed(more, log + KeysOf(Missed(due, log))));
  }

  lemma KeysOfOne(m: Mail)
    ensures KeysOf([m]) == {KeyOf(m.subject)}
  {
    hide KeyOf;
  }

  /** Nothing is sent for a key the log already holds, and afterwards every mail that was due
      has its key in the log. */
  lemma {:induction false} MissedIsExact(due: seq<Option<Mail>>, log: set<Key>)
    ensures forall m :: m in Missed(due, log) ==> KeyOf(m.subject) !in log && Some(m) in due
    ensures forall i :: 0 <= i < |due| && due[i].Some? ==> KeyOf(due[i].value.subject) in log + KeysOf(Missed(due, log))
    ensures forall i, j :: 0 <= i < j < |Missed(due, log)| ==>
      KeyOf(Missed(due, log)[i].subject) != KeyOf(Missed(due, log)[j].subject)
  {
    hide KeyOf;
    if due != [] {
      if due[0].Some? && KeyOf(due[0].value.subject) !in log {
        MissedIsExact(due[1..], log + {KeyOf(due[0].value.subject)});
        assert due[0].value in Missed(due, log);
      } else {
        MissedIsExact(due[1..], log);
      }
    }
  }

  /** A sweep is silent exactly when every mail it would send is already logged. */
  lemma {:induction false} SilentIffAllLogged(due: seq<Option<Mail>>, log: set<Key>)
    ensures Missed(due, log) == []
        <==> forall i :: 0 <= i < |due| && due[i].Some? ==> KeyOf(due[i].value.subject) in log
  {
    hide KeyOf;
    MissedIsExact(due, log);
    if Missed(due, log) != [] {
      var m := Missed(due, log)[0];
      assert m in Missed(due, log);
    } else {
      assert log + KeysOf(Missed(due, log)) == log;
    }
  }

  /** A mail is sent exactly when no send up to and including its own throws. */
  lemma {:induction false} SentIffNothingThrewBefore(ms: seq<Mail>, down: set<Mail>, k: nat)
    requires k < |ms|
    ensures IsPrefix(Deliverable(ms, down), ms)
    ensures k < |Deliverable(ms, down)| <==> forall j :: 0 <= j <= k ==> ms[j] !in down
  {
    if ms[0] in down {
    } else {
      if k > 0 {
        SentIffNothingThrewBefore(ms[1..], down, k - 1);
        assert forall j :: 0 <= j < k ==> ms[1..][j] == ms[j + 1];
      } else {
        DeliverableConcat(ms, [], down);
      }
    }
  }

  /** The next sweep over unchanged tables has exactly the rest to send: nothing at all if no
      send threw. */
  lemma {:induction false} NextSweepSendsTheRest(due: seq<Option<Mail>>, log: set<Key>, down: set<Mail>)
    ensures var missed := Missed(due, log); var first := Deliverable(missed, down);
      && IsPrefix(first, missed)
      && Missed(due, log + KeysOf(first)) == missed[|first|..]
      && (Missed(due, log + KeysOf(first)) == [] <==> first == missed)
  {
    hide KeyOf;
    var missed := Missed(due, log);
    var first := Deliverable(missed, down);
    DeliverableConcat(missed, [], down);
    assert missed + [] == missed;
    MissedSuffix(due, log, |first|);
    assert missed[..|first|] == first;
  }

  predicate IsFresh(due: seq<Option<Mail>>, log: set<Key>) {
    due != [] && due[0].Some? && KeyOf(due[0].value.subject) !in log
  }

  lemma {:induction false} MissedSuffix(due: seq<Option<Mail>>, log: set<Key>, k: nat)
    requires k <= |Missed(due, log)|
    ensures Missed(due, log + KeysOf(Missed(due, log)[..k])) == Missed(due, log)[k..]
  {
    hide KeyOf, KeysOf;
    if k == 0 {
      NoneSkipped(due, log);
    } else if IsFresh(due, log) {
      MissedSuffix(due[1..], log + {KeyOf(due[0].value.subject)}, k - 1);
      FreshSuffix(due, log, k);
    } else {
      MissedSuffix(due[1..], log, k);
      OldSuffix(due, log, k);
    }
  }

  lemma FreshSuffix(due: seq<Option<Mail>>, log: set<Key>, k: nat)
    requires IsFresh(due, log) && 1 <= k
    requires var log' := log + {KeyOf(due[0].value.subject)}; var tail := Missed(due[1..], log');
      k <= |tail| + 1 && Missed(due[1..], log' + KeysOf(tail[..k - 1])) == tail[k - 1..]
    ensures k <= |Missed(due, log)|
    ensures Missed(due, log + KeysOf(Missed(due, log)[..k])) == Missed(due, log)[k..]
  {
    var m := due[0].value;
    var tail := Missed(due[1..], log + {KeyOf(m.subject)});
    MissedUnfolds(due, log);
    SkippedKeys(m, tail, k, log);
    var after := log + KeysOf(([m] + tail)[..k]);
    MissedUnfolds(due, after);
    hide KeyOf, KeysOf, Missed;
    assert !IsFresh(due, after);
  }

  lemma OldSuffix(due: seq<Option<Mail>>, log: set<Key>, k: nat)
    requires due != [] && !IsFresh(due, log) && k <= |Missed(due[1..], log)|
    requires Missed(due[1..], log + KeysOf(Missed(due[1..], log)[..k])) == Missed(due[1..], log)[k..]
    ensures k <= |Missed(due, log)|
    ensures Missed(due, log + KeysOf(Missed(due, log)[..k])) == Missed(due, log)[k..]
  {
    MissedUnfolds(due, log);
    MissedUnfolds(due, log + KeysOf(Missed(due, log)[..k]));
    hide KeyOf, KeysOf, Missed;
  }

  lemma NoneSkipped(due: seq<Option<Mail>>, log: set<Key>)
    ensures Missed(due, log + KeysOf(Missed(due, log)[..0])) == Missed(due, log)[0..]
  {
    hide KeyOf, KeysOf, Missed;
    NothingMissed(log, {});
    assert Missed(due, log)[..0] == [] && log + {} == log;
  }

  lemma MissedUnfolds(due: seq<Option<Mail>>, log: set<Key>)
    requires due != []
    ensures IsFresh(due, log) ==>
      Missed(due, log) == [due[0].value] + Missed(due[1..], log + {KeyOf(due[0].value.subject)})
    ensures !IsFresh(due, log) ==> Missed(due, log) == Missed(due[1..], log)
  {
    hide KeyOf;
  }

  /** The first `k` mails are the first one and `k - 1` of the others. */
  lemma SkippedKeys(m: Mail, tail: seq<Mail>, k: nat, log: set<Key>)
    requires 1 <= k <= |tail| + 1
    ensures ([m] + tail)[k..] == tail[k - 1..]
    ensures log + KeysOf(([m] + tail)[..k]) == log + {KeyOf(m.subject)} + KeysOf(tail[..k - 1])
    ensures KeyOf(m.subject) in log + KeysOf(([m] + tail)[..k])
  {
    hide KeyOf, KeysOf;
    assert ([m] + tail)[..k] == [m] + tail[..k - 1];
    KeysConcat([m], tail[..k - 1]);
    KeysOfOne(m);
  }

  /** The log after `n` sweeps over the same tables, the same sends throwing in each. */
  function LogAfter(due: seq<Option<Mail>>, log: set<Key>, down: set<Mail>, n: nat): set<Key> {
    if n == 0 then log else
    var before := LogAfter(due, log, down, n - 1);
    before + KeysOf(Deliverable(Missed(due, before), down))
  }

  /** While its send keeps throwing, the first mail to throw starves every mail behind it: no
      number of sweeps sends more than the first one did. */
  lemma {:induction false} OneBadMailStarvesTheRest(due: seq<Option<Mail>>, log: set<Key>, down: set<Mail>, n: nat)
    requires n > 0
    ensures LogAfter(due, log, down, n) == log + KeysOf(Deliverable(Missed(due, log), down))
    ensures Deliverable(Missed(due, LogAfter(due, log, down, n)), down) == []
  {
    hide KeyOf;
    NextSweepSendsTheRest(due, log, down);
    RestIsStuck(Missed(due, log), down);
    if n > 1 {
      OneBadMailStarvesTheRest(due, log, down, n - 1);
      var before := LogAfter(due, log, down, n - 1);
      assert before + KeysOf([]) == before;
    } else {
      assert LogAfter(due, log, down, 0) == log;
    }
  }

  lemma {:induction false} RestIsStuck(ms: seq<Mail>, down: set<Mail>)
    ensures IsPrefix(Deliverable(ms, down), ms) && Deliverable(ms[|Deliverable(ms, down)|..], down) == []
  {
    if ms != [] && ms[0] !in down {
      RestIsStuck(ms[1..], down);
      var d := Deliverable(ms[1..], down);
      assert ms[|d| + 1..] == ms[1..][|d|..];
    }
  }

  // ---- whom a sweep reaches ----

  /** The entity is there and its owner has an address on file. */
  predicate CanReach(db: Db, addresses: set<Person>, ref: Ref) {
    ref in db.entities && db.entities[ref].owner.Some? && db.entities[ref].owner.value in addresses
  }

  /** The log after a sweep in which no send throws. */
  function LogOf(db: Db, addresses: set<Person>, stale: seq<Id>, created: seq<Ref>, log: set<Key>): set<Key> {
    log + KeysOf(Missed(DecisionsDue(db, addresses, stale) + CreationsDue(db, addresses, created), log))
  }

  /** A mail a sweep sends is about a listed row, goes to the owner of the entity, who has an
      address on file, and for a decision reports the entity's status, approved or rejected. */
  lemma {:induction false} SentMailsAreDue(db: Db, addresses: set<Person>, stale: seq<Id>, created: seq<Ref>,
        log: set<Key>, m: Mail)
    requires m in Missed(DecisionsDue(db, addresses, stale) + CreationsDue(db, addresses, created), log)
    ensures m.subject.Submission? || m.subject.Decision?
    ensures CanReach(db, addresses, m.subject.ref) && Some(m.to) == db.entities[m.subject.ref].owner
    ensures m.subject.Submission? ==> m.subject.ref in created && m.status == None
    ensures m.subject.Decision? ==>
      && m.subject.entry in stale && m.subject.entry in db.queue && db.queue[m.subject.entry].ref == m.subject.ref
      && m.subject.ref.etype != Company && m.status == Some(db.entities[m.subject.ref].status)
      && (m.status == Some(Approved) || m.status == Some(Rejected))
  {
    var due := DecisionsDue(db, addresses, stale) + CreationsDue(db, addresses, created);
    MissedIsExact(due, log);
    hide Missed, KeyOf;
    var i :| 0 <= i < |due| && due[i] == Some(m);
  }

  /** After a sweep in which no send throws, the creation of a listed entity is logged exactly
      when it was before or its owner can be reached. */
  lemma {:induction false} CreationLoggedIff(db: Db, addresses: set<Person>, stale: seq<Id>, created: seq<Ref>,
        log: set<Key>, ref: Ref)
    requires ref in created
    ensures KeyOf(Submission(ref)) in LogOf(db, addresses, stale, created, log)
            <==> KeyOf(Submission(ref)) in log || CanReach(db, addresses, ref)
  {
    var due := DecisionsDue(db, addresses, stale) + CreationsDue(db, addresses, created);
    MissedIsExact(due, log);
    var i :| 0 <= i < |created| && created[i] == ref;
    assert due[|stale| + i] == CreationMail(db, addresses, ref);
    if m :| m in Missed(due, log) && KeyOf(m.subject) == KeyOf(Submission(ref)) {
      KeyIsInjective(m.subject, Submission(ref));
      SentMailsAreDue(db, addresses, stale, created, log, m);
    }
    hide Missed, KeyOf;
  }

  /** And a listed reviewed entry, exactly when it was before, or it is not about a company, the
      entity stands approved or rejected, and its owner can be reached. */
  lemma {:induction false} DecisionLoggedIff(db: Db, addresses: set<Person>, stale: seq<Id>, created: seq<Ref>,
        log: set<Key>, id: Id)
    requires id in stale && id in db.queue
    ensures var ref := db.queue[id].ref;
      KeyOf(Decision(ref, id)) in LogOf(db, addresses, stale, created, log)
      <==> KeyOf(Decision(ref, id)) in log
           || (ref.etype != Company && CanReach(db, addresses, ref)
               && (db.entities[ref].status == Approved || db.entities[ref].status == Rejected))
  {
    var due := DecisionsDue(db, addresses, stale) + CreationsDue(db, addresses, created);
    var ref := db.queue[id].ref;
    MissedIsExact(due, log);
    var i :| 0 <= i < |stale| && stale[i] == id;
    assert due[i] == DecisionMail(db, addresses, id);
    if m :| m in Missed(due, log) && KeyOf(m.subject) == KeyOf(Decision(ref, id)) {
      KeyIsInjective(m.subject, Decision(ref, id));
      SentMailsAreDue(db, addresses, stale, created, log, m);
    }
    hide Missed, KeyOf;
  }

  // ---- what a late mail says ----

  /** In every run a mail about a reviewed entry reports the outcome of its entity's newest
      entry, so it reports the entry's own outcome exactly when the two agree. */
  lemma {:induction false} MailReportsNewestOutcome(steps: seq<Step>, addresses: set<Person>, id: Id)
    requires DecisionMail(Run(steps).core.db, addresses, id).Some?
    ensures var db := Run(steps).core.db;
      var status := DecisionMail(db, addresses, id).value.status;
      && (exists n :: Newest(Thread(db.queue, db.queue[id].ref), n))
      && forall n :: Newest(Thread(db.queue, db.queue[id].ref), n) ==>
           && status == Some(StatusOf(db.queue[n]))
           && (status == Some(StatusOf(db.queue[id])) <==> StatusOf(db.queue[id]) == StatusOf(db.queue[n]))
  {
    RunExplained(steps);
    var db := Run(steps).core.db;
    hide Run;
    var ref := db.queue[id].ref;
    ExplainedMeansLooseRule(db.entities[ref], db.queue, ref);
  }
}
