/**
 What holds of the submitted processes, rounds, interactions and ratings after any list of calls,
 of the single endpoints and of the bulk endpoint, by any candidates at any times.
 */
module Submissions {
  import opened Wrappers
  import opened Queue
  import opened Bulk

  datatype Call =
    | NewProcess(company: CompanyId, fields: nat)
    | NewRound(process: Id, round: RoundDto)
    | NewInteraction(process: Id, identifier: string)
    | NewRating(etype: EntityType, parent: Id, rating: RatingDto)
    | Submit(company: CompanyId, dto: BulkDto)
    | ApproveCompany(company: CompanyId)

  function Answer(s: State, call: Call, cx: Context): Result<State, Error> {
    match call
    case NewProcess(company, fields) => CreateProcess(s, company, fields, cx)
    case NewRound(process, dto) => CreateRound(s, process, dto, cx)
    case NewInteraction(process, identifier) => CreateInteraction(s, process, identifier, cx)
    case NewRating(etype, parent, dto) => CreateRating(s, etype, parent, dto, cx)
    case Submit(company, dto) => OneByOne(s, company, dto, cx)
    case ApproveCompany(company) => Ok(s.(tables := s.tables.(approved := s.tables.approved + {company})))
  }

  function Exec(s: State, call: Call, cx: Context): State {
    match Answer(s, call, cx)
    case Ok(s') => s'
    case Err(_) => s
  }

  const Nothing := State(Tables({}, map[], map[], map[], map[], map[], map[], 0), [])

  function Run(calls: seq<(Call, Context)>): State {
    if calls == [] then Nothing else
    Exec(Run(calls[..|calls| - 1]), calls[|calls| - 1].0, calls[|calls| - 1].1)
  }

  // ---- what every call keeps ----

  predicate Below(t: Tables) {
    && FreshIds(t)
    && (forall id :: id in t.rounds ==> id < t.nextId)
    && (forall id :: id in t.interactions ==> id < t.nextId)
    && (forall k :: k in t.recruiters ==> t.recruiters[k].id < t.nextId)
  }

  function RecruitersOf(t: Tables, company: CompanyId): set<(CompanyId, nat)> {
    set k | k in t.recruiters && k.0 == company
  }

  /** The recruiters of a company are labelled A, B, C and so on, without gap or repetition. */
  ghost predicate Lettered(t: Tables) {
    && (forall k :: k in t.recruiters ==> 65 <= t.recruiters[k].displayLabel < 65 + |RecruitersOf(t, k.0)|)
    && (forall k, l :: k in t.recruiters && l in t.recruiters && k != l ==>
          && t.recruiters[k].id != t.recruiters[l].id
          && (k.0 == l.0 ==> t.recruiters[k].displayLabel != t.recruiters[l].displayLabel))
  }

  predicate Names(t: Tables, k: (CompanyId, nat), i: Interaction) {
    && k in t.recruiters && t.recruiters[k].id == i.recruiter
    && i.process in t.processes && k.0 == t.processes[i.process].company
  }

  /** An interaction is with a recruiter of the company of its process. */
  ghost predicate OwnRecruiters(t: Tables) {
    forall id :: id in t.interactions ==> exists k :: Names(t, k, t.interactions[id])
  }

  predicate SameSlot(a: Ref, b: Ref, x: Rating, y: Rating) {
    a.etype == b.etype && x.parent == y.parent && (a.etype == OverallReview || x.candidate == y.candidate)
  }

  /** One rating by a candidate of each round or interaction, one review of each process. */
  ghost predicate OneEach(t: Tables) {
    forall a, b :: a in t.ratings && b in t.ratings && SameSlot(a, b, t.ratings[a], t.ratings[b]) ==> a == b
  }

  ghost predicate HaveParents(t: Tables) {
    forall ref :: ref in t.ratings ==> ParentExists(t, ref.etype, t.ratings[ref].parent)
  }

  ghost predicate Kept(t: Tables) {
    Below(t) && Lettered(t) && OneEach(t) && OwnRecruiters(t) && HaveParents(t)
  }

  // ---- what no call changes, and what is new ----

  ghost predicate Extends<K, V>(m: map<K, V>, m': map<K, V>) {
    forall k :: k in m ==> k in m' && m'[k] == m[k]
  }

  ghost predicate NewProcesses(t: Tables, t': Tables, cx: Context) {
    forall id :: id in t'.processes && id !in t.processes ==>
      t'.processes[id].candidate == cx.candidate && t'.processes[id].createdAt == cx.now
  }

  ghost predicate NewRounds(t: Tables, t': Tables, cx: Context) {
    forall id :: id in t'.rounds && id !in t.rounds ==>
      Mine(t', t'.rounds[id].process, cx) && cx.rules.validMetadata(t'.rounds[id].roundType, t'.rounds[id].metadata)
  }

  ghost predicate NewInteractions(t: Tables, t': Tables, cx: Context) {
    forall id :: id in t'.interactions && id !in t.interactions ==> Mine(t', t'.interactions[id].process, cx)
  }

  ghost predicate NewRatings(t: Tables, t': Tables, cx: Context) {
    forall ref :: ref in t'.ratings && ref !in t.ratings ==>
      && t.nextId <= ref.eid && t'.ratings[ref].candidate == cx.candidate
      && ref.eid + 1 in t'.queue && t'.queue[ref.eid + 1].ref == ref
      && t'.queue[ref.eid + 1].deadline == cx.now + cx.slaWindow
  }

  /** Nothing that was there changes, and what is new is the caller's own, each rating with an
      entry in the queue. */
  ghost predicate Grows(t: Tables, t': Tables, cx: Context) {
    && t.nextId <= t'.nextId
    && Extends(t.processes, t'.processes) && Extends(t.rounds, t'.rounds)
    && Extends(t.interactions, t'.interactions) && Extends(t.recruiters, t'.recruiters)
    && Extends(t.ratings, t'.ratings) && Extends(t.queue, t'.queue)
    && NewProcesses(t, t', cx) && NewRounds(t, t', cx) && NewInteractions(t, t', cx) && NewRatings(t, t', cx)
  }

  lemma ExtendsOn<K, V>(m: map<K, V>, n: map<K, V>, o: map<K, V>)
    requires Extends(m, n) && Extends(n, o)
    ensures Extends(m, o)
  {
  }

  lemma NewOn(t: Tables, u: Tables, v: Tables, cx: Context)
    requires Grows(t, u, cx) && Grows(u, v, cx)
    ensures NewProcesses(t, v, cx) && NewRatings(t, v, cx)
  {
    hide NewRounds, NewInteractions;
  }

  lemma NewPartsOn(t: Tables, u: Tables, v: Tables, cx: Context)
    requires Grows(t, u, cx) && Grows(u, v, cx)
    ensures NewRounds(t, v, cx) && NewInteractions(t, v, cx)
  {
    hide NewProcesses, NewRatings;
  }

  lemma GrowsOn(t: Tables, u: Tables, v: Tables, cx: Context)
    requires Grows(t, u, cx) && Grows(u, v, cx)
    ensures Grows(t, v, cx)
  {
    NewOn(t, u, v, cx);
    NewPartsOn(t, u, v, cx);
    hide NewProcesses, NewRounds, NewInteractions, NewRatings, Extends;
    ExtendsOn(t.processes, u.processes, v.processes);
    ExtendsOn(t.rounds, u.rounds, v.rounds);
    ExtendsOn(t.interactions, u.interactions, v.interactions);
    ExtendsOn(t.recruiters, u.recruiters, v.recruiters);
    ExtendsOn(t.ratings, u.ratings, v.ratings);
    ExtendsOn(t.queue, u.queue, v.queue);
  }

  ghost predicate Good(s: State, r: Result<State, Error>, cx: Context) {
    r.Ok? ==> Kept(r.value.tables) && Grows(s.tables, r.value.tables, cx)
  }

  /** More processes, recruiters and parents take nothing away. */
  lemma StillHome(t: Tables, t': Tables)
    requires OwnRecruiters(t) && t'.interactions == t.interactions
    requires Extends(t.processes, t'.processes) && Extends(t.recruiters, t'.recruiters)
    ensures OwnRecruiters(t')
  {
    forall id | id in t'.interactions ensures exists k :: Names(t', k, t'.interactions[id]) {
      var k :| Names(t, k, t.interactions[id]);
      assert Names(t', k, t'.interactions[id]);
    }
  }

  lemma StillLettered(t: Tables, t': Tables)
    requires Lettered(t) && t'.recruiters == t.recruiters
    ensures Lettered(t')
  {
    assert forall c :: RecruitersOf(t', c) == RecruitersOf(t, c);
  }

  lemma StillParents(t: Tables, t': Tables)
    requires HaveParents(t) && t'.ratings == t.ratings && Extends(t.processes, t'.processes)
    requires Extends(t.rounds, t'.rounds) && Extends(t.interactions, t'.interactions)
    ensures HaveParents(t')
  {
  }

  lemma ProcessGrows(t: Tables, company: CompanyId, fields: nat, cx: Context)
    requires Below(t)
    ensures Grows(t, InsertProcess(t, company, fields, cx), cx) && Below(InsertProcess(t, company, fields, cx))
  {
  }

  lemma ProcessGood(s: State, company: CompanyId, fields: nat, cx: Context)
    requires Kept(s.tables)
    ensures Good(s, CreateProcess(s, company, fields, cx), cx)
  {
    var t, t' := s.tables, InsertProcess(s.tables, company, fields, cx);
    ProcessGrows(t, company, fields, cx);
    hide Lettered, OwnRecruiters, HaveParents, OneEach, NewProcesses, NewRounds, NewInteractions, NewRatings, Below,
      Extends;
    StillHome(t, t');
    StillLettered(t, t');
    StillParents(t, t');
    StillOneEach(t, t');
  }

  lemma StillOneEach(t: Tables, t': Tables)
    requires OneEach(t) && t'.ratings == t.ratings
    ensures OneEach(t')
  {
  }

  lemma RoundGrows(t: Tables, process: Id, dto: RoundDto, cx: Context)
    requires Below(t) && Mine(t, process, cx) && cx.rules.validMetadata(dto.roundType, dto.metadata)
    ensures Grows(t, InsertRound(t, process, dto), cx) && Below(InsertRound(t, process, dto))
  {
  }

  lemma RoundGood(s: State, process: Id, dto: RoundDto, cx: Context)
    requires Kept(s.tables)
    ensures Good(s, CreateRound(s, process, dto, cx), cx)
  {
    var t, t' := s.tables, InsertRound(s.tables, process, dto);
    if CreateRound(s, process, dto, cx).Ok? {
      RoundGrows(t, process, dto, cx);
      hide Lettered, OwnRecruiters, HaveParents, OneEach, NewProcesses, NewRounds, NewInteractions, NewRatings, Below,
        Extends;
      StillHome(t, t');
      StillLettered(t, t');
      StillParents(t, t');
      StillOneEach(t, t');
    }
  }

  lemma RatingGrows(t: Tables, etype: EntityType, parent: Id, dto: RatingDto, cx: Context)
    requires Below(t) && InsertRating(t, etype, parent, dto, cx).Ok?
    ensures var t' := InsertRating(t, etype, parent, dto, cx).value; Grows(t, t', cx) && Below(t')
  {
    hide DetectFlagReason, Taken, ParentExists;
  }

  lemma RatingKeeps(t: Tables, etype: EntityType, parent: Id, dto: RatingDto, cx: Context)
    requires OneEach(t) && HaveParents(t) && InsertRating(t, etype, parent, dto, cx).Ok?
    ensures var t' := InsertRating(t, etype, parent, dto, cx).value; OneEach(t') && HaveParents(t')
  {
    hide DetectFlagReason;
  }

  lemma RatingGood(s: State, etype: EntityType, parent: Id, dto: RatingDto, cx: Context)
    requires Kept(s.tables)
    ensures Good(s, CreateRating(s, etype, parent, dto, cx), cx)
  {
    var r := InsertRating(s.tables, etype, parent, dto, cx);
    if r.Ok? {
      RatingGrows(s.tables, etype, parent, dto, cx);
      RatingKeeps(s.tables, etype, parent, dto, cx);
      hide Lettered, OwnRecruiters, HaveParents, OneEach, NewProcesses, NewRounds, NewInteractions, NewRatings, Below,
        Extends, ParentExists, Taken, DetectFlagReason;
      StillHome(s.tables, r.value);
      StillLettered(s.tables, r.value);
    }
  }

  /** The table with one more recruiter, labelled by how many the company had. */
  function Hired(t: Tables, key: (CompanyId, nat)): Tables {
    t.(recruiters := t.recruiters[key := Recruiter(t.nextId, 65 + |RecruitersOf(t, key.0)|)], nextId := t.nextId + 1)
  }

  lemma FindsOrHires(t: Tables, company: CompanyId, identifier: string, rules: Rules)
    ensures var key := (company, rules.hash(identifier));
      FindOrCreateRecruiter(t, company, identifier, rules) == if key in t.recruiters then t else Hired(t, key)
  {
  }

  lemma OneMore(t: Tables, key: (CompanyId, nat), company: CompanyId)
    requires key !in t.recruiters
    ensures |RecruitersOf(Hired(t, key), company)| == |RecruitersOf(t, company)| + if company == key.0 then 1 else 0
  {
    var before, after := RecruitersOf(t, company), RecruitersOf(Hired(t, key), company);
    assert after == if company == key.0 then before + {key} else before;
  }

  lemma HiredInRange(t: Tables, key: (CompanyId, nat), k: (CompanyId, nat))
    requires Lettered(t) && key !in t.recruiters && k in Hired(t, key).recruiters
    ensures 65 <= Hired(t, key).recruiters[k].displayLabel < 65 + |RecruitersOf(Hired(t, key), k.0)|
  {
    OneMore(t, key, k.0);
    hide RecruitersOf;
  }

  lemma HiredDiffers(t: Tables, key: (CompanyId, nat), k: (CompanyId, nat))
    requires Below(t) && Lettered(t) && key !in t.recruiters && k in t.recruiters
    ensures var hired := Hired(t, key).recruiters[key];
      && t.recruiters[k].id != hired.id
      && (k.0 == key.0 ==> t.recruiters[k].displayLabel != hired.displayLabel)
  {
    hide RecruitersOf, FreshIds;
  }

  lemma HiredPair(t: Tables, key: (CompanyId, nat), k: (CompanyId, nat), l: (CompanyId, nat))
    requires Below(t) && Lettered(t) && key !in t.recruiters && k != l
    requires k in Hired(t, key).recruiters && l in Hired(t, key).recruiters
    ensures var hired := Hired(t, key).recruiters;
      && hired[k].id != hired[l].id
      && (k.0 == l.0 ==> hired[k].displayLabel != hired[l].displayLabel)
  {
    if k == key { HiredDiffers(t, key, l); } else if l == key { HiredDiffers(t, key, k); }
    hide RecruitersOf, FreshIds;
  }

  lemma HiredPairs(t: Tables, key: (CompanyId, nat))
    requires Below(t) && Lettered(t) && key !in t.recruiters
    ensures var hired := Hired(t, key).recruiters;
      forall k, l :: k in hired && l in hired && k != l ==>
        && hired[k].id != hired[l].id
        && (k.0 == l.0 ==> hired[k].displayLabel != hired[l].displayLabel)
  {
    hide Lettered, Below, Hired;
    forall k, l | k in Hired(t, key).recruiters && l in Hired(t, key).recruiters && k != l
      ensures var hired := Hired(t, key).recruiters;
        && hired[k].id != hired[l].id
        && (k.0 == l.0 ==> hired[k].displayLabel != hired[l].displayLabel)
    {
      HiredPair(t, key, k, l);
    }
  }

  lemma HiredLettered(t: Tables, key: (CompanyId, nat))
    requires Below(t) && Lettered(t) && key !in t.recruiters
    ensures Lettered(Hired(t, key))
  {
    hide RecruitersOf, Below, Hired;
    HiredPairs(t, key);
    var t' := Hired(t, key);
    forall k | k in t'.recruiters ensures 65 <= t'.recruiters[k].displayLabel < 65 + |RecruitersOf(t', k.0)| {
      HiredInRange(t, key, k);
    }
  }

  lemma FoundGrows(t: Tables, company: CompanyId, identifier: string, cx: Context)
    requires Below(t)
    ensures var t' := FindOrCreateRecruiter(t, company, identifier, cx.rules); Grows(t, t', cx) && Below(t')
  {
  }

  lemma FoundGood(t: Tables, company: CompanyId, identifier: string, cx: Context)
    requires Kept(t)
    ensures var t' := FindOrCreateRecruiter(t, company, identifier, cx.rules);
      && Kept(t') && Grows(t, t', cx) && (company, cx.rules.hash(identifier)) in t'.recruiters
      && t' == t.(recruiters := t'.recruiters, nextId := t'.nextId)
  {
    hide FindOrCreateRecruiter, Lettered, OwnRecruiters, HaveParents, OneEach, NewProcesses, NewRounds, NewInteractions,
      NewRatings, Below, Extends;
    var key, t' := (company, cx.rules.hash(identifier)), FindOrCreateRecruiter(t, company, identifier, cx.rules);
    FoundGrows(t, company, identifier, cx);
    FindsOrHires(t, company, identifier, cx.rules);
    if key !in t.recruiters { HiredLettered(t, key); }
    StillHome(t, t');
    StillParents(t, t');
    StillOneEach(t, t');
  }

  /** The row that joins a process to a recruiter of its company. */
  function Joined(t: Tables, process: Id, recruiter: Id): Tables {
    t.(interactions := t.interactions[t.nextId := Interaction(process, recruiter)], nextId := t.nextId + 1)
  }

  lemma JoinedGood(t: Tables, process: Id, k: (CompanyId, nat), cx: Context)
    requires Kept(t) && Mine(t, process, cx) && k in t.recruiters && k.0 == t.processes[process].company
    ensures var t' := Joined(t, process, t.recruiters[k].id); Kept(t') && Grows(t, t', cx)
  {
    var t' := Joined(t, process, t.recruiters[k].id);
    JoinedGrows(t, process, t.recruiters[k].id, cx);
    hide Lettered, HaveParents, OneEach, NewProcesses, NewRounds, NewInteractions, NewRatings, Below;
    StillLettered(t, t');
    StillParents(t, t');
    StillOneEach(t, t');
    forall id | id in t'.interactions ensures exists l :: Names(t', l, t'.interactions[id]) {
      if id in t.interactions {
        assert t'.interactions[id] == t.interactions[id];
        var l :| Names(t, l, t.interactions[id]);
        assert Names(t', l, t'.interactions[id]);
      } else {
        assert Names(t', k, t'.interactions[id]);
      }
    }
  }

  lemma JoinedGrows(t: Tables, process: Id, recruiter: Id, cx: Context)
    requires Below(t) && Mine(t, process, cx)
    ensures Grows(t, Joined(t, process, recruiter), cx) && Below(Joined(t, process, recruiter))
  {
  }

  lemma JoinsRecruiter(s: State, process: Id, identifier: string, cx: Context)
    requires CreateInteraction(s, process, identifier, cx).Ok?
    ensures Mine(s.tables, process, cx)
    ensures var key := (s.tables.processes[process].company, cx.rules.hash(identifier));
      var u := FindOrCreateRecruiter(s.tables, key.0, identifier, cx.rules);
      && key in u.recruiters
      && CreateInteraction(s, process, identifier, cx).value.tables == Joined(u, process, u.recruiters[key].id)
  {
  }

  lemma InteractionGood(s: State, process: Id, identifier: string, cx: Context)
    requires Kept(s.tables)
    ensures Good(s, CreateInteraction(s, process, identifier, cx), cx)
  {
    if CreateInteraction(s, process, identifier, cx).Ok? {
      JoinsRecruiter(s, process, identifier, cx);
      var key := (s.tables.processes[process].company, cx.rules.hash(identifier));
      var u := FindOrCreateRecruiter(s.tables, key.0, identifier, cx.rules);
      FoundGood(s.tables, key.0, identifier, cx);
      hide FindOrCreateRecruiter, CreateInteraction, InsertInteraction, Kept, Grows, Joined;
      JoinedGood(u, process, key, cx);
      GrowsOn(s.tables, u, Joined(u, process, u.recruiters[key].id), cx);
    }
  }

  // ---- the bulk endpoint is made of these ----

  lemma GoodOn(s: State, u: State, r: Result<State, Error>, cx: Context)
    requires Grows(s.tables, u.tables, cx) && Good(u, r, cx)
    ensures Good(s, r, cx)
  {
    hide Grows, Kept;
    if r.Ok? { GrowsOn(s.tables, u.tables, r.value.tables, cx); }
  }

  lemma RatedToo(s: State, u: State, etype: EntityType, parent: Id, dto: RatingDto, cx: Context)
    requires Kept(u.tables) && Grows(s.tables, u.tables, cx)
    ensures Good(s, CreateRating(u, etype, parent, dto, cx), cx)
  {
    hide Kept, Grows, CreateRating;
    RatingGood(u, etype, parent, dto, cx);
    GoodOn(s, u, CreateRating(u, etype, parent, dto, cx), cx);
  }

  lemma RoundThenRatingGood(s: State, process: Id, dto: RoundDto, cx: Context)
    requires Kept(s.tables)
    ensures Good(s, RoundThenRating(s, process, dto, cx), cx)
  {
    hide Kept, Grows, CreateRound, CreateRating;
    RoundGood(s, process, dto, cx);
    var r := CreateRound(s, process, dto, cx);
    if r.Ok? && dto.rating.Some? { RatedToo(s, r.value, RoundRating, s.tables.nextId, dto.rating.value, cx); }
  }

  lemma InteractionHasId(s: State, process: Id, identifier: string, cx: Context)
    ensures var r := CreateInteraction(s, process, identifier, cx); r.Ok? ==> r.value.tables.nextId > 0
  {
    hide FindOrCreateRecruiter;
    if CreateInteraction(s, process, identifier, cx).Ok? { JoinsRecruiter(s, process, identifier, cx); }
  }

  lemma InteractionThenRatingGood(s: State, process: Id, dto: InteractionDto, cx: Context)
    requires Kept(s.tables)
    ensures Good(s, InteractionThenRating(s, process, dto, cx), cx)
  {
    hide Kept, Grows, CreateInteraction, CreateRating;
    InteractionGood(s, process, dto.identifier, cx);
    var r := CreateInteraction(s, process, dto.identifier, cx);
    if r.Ok? && dto.rating.Some? {
      InteractionHasId(s, process, dto.identifier, cx);
      RatedToo(s, r.value, RecruiterRating, r.value.tables.nextId - 1, dto.rating.value, cx);
    }
  }

  lemma GrowsAtAll(t: Tables, cx: Context)
    ensures Grows(t, t, cx)
  {
  }

  lemma {:induction false} RoundsGood(s: State, process: Id, rounds: seq<RoundDto>, cx: Context)
    requires Kept(s.tables)
    ensures Good(s, RoundsOneByOne(s, process, rounds, cx), cx)
  {
    if rounds == [] {
      GrowsAtAll(s.tables, cx);
    } else {
      hide Kept, Grows, RoundThenRating;
      var r, last := RoundsOneByOne(s, process, rounds[..|rounds| - 1], cx), rounds[|rounds| - 1];
      RoundsGood(s, process, rounds[..|rounds| - 1], cx);
      if r.Ok? {
        RoundThenRatingGood(r.value, process, last, cx);
        GoodOn(s, r.value, RoundThenRating(r.value, process, last, cx), cx);
      }
    }
  }

  lemma {:induction false} InteractionsGood(s: State, process: Id, dtos: seq<InteractionDto>, cx: Context)
    requires Kept(s.tables)
    ensures Good(s, InteractionsOneByOne(s, process, dtos, cx), cx)
  {
    if dtos == [] {
      GrowsAtAll(s.tables, cx);
    } else {
      hide Kept, Grows, InteractionThenRating;
      var r, last := InteractionsOneByOne(s, process, dtos[..|dtos| - 1], cx), dtos[|dtos| - 1];
      InteractionsGood(s, process, dtos[..|dtos| - 1], cx);
      if r.Ok? {
        InteractionThenRatingGood(r.value, process, last, cx);
        GoodOn(s, r.value, InteractionThenRating(r.value, process, last, cx), cx);
      }
    }
  }

  lemma SubmitGood(s: State, company: CompanyId, dto: BulkDto, cx: Context)
    requires Kept(s.tables)
    ensures Good(s, OneByOne(s, company, dto, cx), cx)
  {
    var p := s.tables.nextId;
    ProcessGood(s, company, dto.fields, cx);
    hide Kept, Grows, CreateProcess, CreateRating, RoundsOneByOne, InteractionsOneByOne;
    var r1 := CreateProcess(s, company, dto.fields, cx);
    if r1.Ok? {
      var r2 := RoundsOneByOne(r1.value, p, dto.rounds, cx);
      RoundsGood(r1.value, p, dto.rounds, cx);
      GoodOn(s, r1.value, r2, cx);
      if r2.Ok? {
        var r3 := InteractionsOneByOne(r2.value, p, dto.interactions, cx);
        InteractionsGood(r2.value, p, dto.interactions, cx);
        GoodOn(s, r2.value, r3, cx);
        if r3.Ok? && dto.overall.Some? {
          RatingGood(r3.value, OverallReview, p, dto.overall.value, cx);
          GoodOn(s, r3.value, CreateRating(r3.value, OverallReview, p, dto.overall.value, cx), cx);
        }
      }
    }
  }

  lemma ExecGood(s: State, call: Call, cx: Context)
    requires Kept(s.tables)
    ensures Kept(Exec(s, call, cx).tables) && Grows(s.tables, Exec(s, call, cx).tables, cx)
  {
    GrowsAtAll(s.tables, cx);
    match call
    case NewProcess(company, fields) => ProcessGood(s, company, fields, cx);
    case NewRound(process, dto) => RoundGood(s, process, dto, cx);
    case NewInteraction(process, identifier) => InteractionGood(s, process, identifier, cx);
    case NewRating(etype, parent, dto) => RatingGood(s, etype, parent, dto, cx);
    case Submit(company, dto) => SubmitGood(s, company, dto, cx);
    case ApproveCompany(company) => ApproveGood(s, company, cx);
  }

  lemma ApproveGood(s: State, company: CompanyId, cx: Context)
    requires Kept(s.tables)
    ensures Kept(Exec(s, ApproveCompany(company), cx).tables)
        && Grows(s.tables, Exec(s, ApproveCompany(company), cx).tables, cx)
  {
    var t, t' := s.tables, Exec(s, ApproveCompany(company), cx).tables;
    hide Lettered, OwnRecruiters, HaveParents, OneEach;
    StillHome(t, t');
    StillLettered(t, t');
    StillParents(t, t');
    StillOneEach(t, t');
  }

  lemma {:induction false} RunKept(calls: seq<(Call, Context)>)
    ensures Kept(Run(calls).tables)
  {
    if calls != [] {
      RunKept(calls[..|calls| - 1]);
      hide Kept, Grows, Exec;
      ExecGood(Run(calls[..|calls| - 1]), calls[|calls| - 1].0, calls[|calls| - 1].1);
    }
  }

  // ---- what that means ----

  /** In every run no two recruiters of a company share a label, and with n of them the labels are
      the first n characters from A on; every interaction is with a recruiter of the company of its process. */
  lemma {:induction false} RecruitersAreLettered(calls: seq<(Call, Context)>, company: CompanyId)
    ensures var t := Run(calls).tables;
      && (forall k, l :: k in RecruitersOf(t, company) && l in RecruitersOf(t, company) && k != l ==>
            t.recruiters[k].displayLabel != t.recruiters[l].displayLabel)
      && (forall k :: k in RecruitersOf(t, company) ==>
            65 <= t.recruiters[k].displayLabel < 65 + |RecruitersOf(t, company)|)
      && (forall id :: id in t.interactions ==> exists k :: Names(t, k, t.interactions[id]))
  {
    RunKept(calls);
    hide Run;
  }

  /** In every run a candidate has at most one rating of a round or interaction, and a process at
      most one review; what is rated is there. */
  lemma {:induction false} OneRatingEach(calls: seq<(Call, Context)>, a: Ref, b: Ref)
    requires a in Run(calls).tables.ratings && b in Run(calls).tables.ratings && a != b && a.etype == b.etype
    requires Run(calls).tables.ratings[a].parent == Run(calls).tables.ratings[b].parent
    ensures a.etype == RoundRating || a.etype == RecruiterRating
    ensures Run(calls).tables.ratings[a].candidate != Run(calls).tables.ratings[b].candidate
    ensures Run(calls).tables.ratings[a].parent in
      (if a.etype == RoundRating then Run(calls).tables.rounds.Keys else Run(calls).tables.interactions.Keys)
  {
    RunKept(calls);
    hide Run;
  }

  /** Whatever is called in whatever state of a run, accepted or refused: no row changes or goes,
      new processes, rounds and interactions belong to processes of the caller, with valid
      metadata, and each new rating is the caller's and gets its entry, due one window later. */
  lemma {:induction false} CallersAddTheirOwn(calls: seq<(Call, Context)>, call: Call, cx: Context)
    ensures Grows(Run(calls).tables, Run(calls + [(call, cx)]).tables, cx)
  {
    RunKept(calls);
    assert (calls + [(call, cx)])[..|calls|] == calls;
    hide Kept, Grows, Exec;
    ExecGood(Run(calls), call, cx);
  }

  // ---- what is accepted ----

  ghost predicate ThreeRecent(t: Tables, candidate: Person, now: int) {
    exists p, q, r :: p != q && q != r && p != r
      && IsRecentOf(t, p, candidate, now) && IsRecentOf(t, q, candidate, now) && IsRecentOf(t, r, candidate, now)
  }

  lemma ThreeOrMore(ids: set<Id>)
    ensures |ids| >= 3 <==> exists p, q, r :: p in ids && q in ids && r in ids && p != q && q != r && p != r
  {
    if |ids| >= 3 {
      var p :| p in ids;
      TwoOrMore(ids - {p});
    }
    if p, q, r :| p in ids && q in ids && r in ids && p != q && q != r && p != r {
      assert {p, q, r} <= ids && |ids| == |{p, q, r}| + |ids - {p, q, r}|;
    }
  }

  lemma LimitedIffThreeRecent(t: Tables, cx: Context)
    ensures RateLimited(t, cx) <==> ThreeRecent(t, cx.candidate, cx.now)
  {
    var ids := RecentProcesses(t, cx.candidate, cx.now);
    assert forall p :: p in ids <==> IsRecentOf(t, p, cx.candidate, cx.now);
    ThreeOrMore(ids);
    hide RecentProcesses, IsRecentOf;
  }

  predicate HasSimilar(t: Tables, etype: EntityType, text: string, rules: Rules) {
    exists ref :: ref in t.ratings && ref.etype == etype && t.ratings[ref].content.text.Some?
                  && rules.similar(t.ratings[ref].content.text.value, text)
  }

  /** A rating's entry is flagged for the rate when its candidate has three processes of the last
      day; otherwise as a duplicate when its text, not blank, is similar to one of the same kind. */
  ghost predicate RightReason(t: Tables, etype: EntityType, text: Option<string>, cx: Context,
        reason: Option<FlagReason>)
  {
    if ThreeRecent(t, cx.candidate, cx.now) then reason == Some(RateLimit)
    else if text.Some? && !cx.rules.blank(text.value) && HasSimilar(t, etype, text.value, cx.rules)
    then reason == Some(Duplicate)
    else reason == None
  }

  lemma ReasonIsRight(t: Tables, etype: EntityType, text: Option<string>, cx: Context)
    ensures RightReason(t, etype, text, cx, DetectFlagReason(t, etype, text, cx))
  {
    LimitedIffThreeRecent(t, cx);
    hide RateLimited, ThreeRecent;
  }

  /** A rating is refused exactly when what it rates is missing, or the candidate has rated it, or
      it is a second review of a process. */
  lemma {:induction false} RatingAcceptedIff(s: State, etype: EntityType, parent: Id, dto: RatingDto, cx: Context)
    ensures var t, r, ref := s.tables, CreateRating(s, etype, parent, dto, cx), Ref(etype, s.tables.nextId);
      if match etype
         case RoundRating => parent !in t.rounds
         case RecruiterRating => parent !in t.interactions
         case OverallReview => parent !in t.processes
         case Company => true
      then r == Err(NotFound)
      else if exists a :: a in t.ratings && SameSlot(a, ref, t.ratings[a], Rating(parent, cx.candidate, dto))
      then r == Err(Conflict)
      else
        && r.Ok? && r.value.events == s.events + [ref]
        && r.value.tables.ratings == t.ratings[ref := Rating(parent, cx.candidate, dto)]
        && ref.eid + 1 in r.value.tables.queue
        && r.value.tables.queue == t.queue[ref.eid + 1 := r.value.tables.queue[ref.eid + 1]]
        && r.value.tables.queue[ref.eid + 1].deadline == cx.now + cx.slaWindow
        && RightReason(t, etype, dto.text, cx, r.value.tables.queue[ref.eid + 1].flag)
  {
    ReasonIsRight(s.tables, etype, dto.text, cx);
    hide DetectFlagReason, RightReason;
  }

  /** An interaction is with the recruiter its company files under the identifier: the one filed
      there before, if any. */
  lemma {:induction false} InteractionIsWith(s: State, process: Id, identifier: string, cx: Context)
    ensures var t, r := s.tables, CreateInteraction(s, process, identifier, cx);
      if process !in t.processes then r == Err(NotFound)
      else if t.processes[process].candidate != cx.candidate then r == Err(Forbidden)
      else
        var key := (t.processes[process].company, cx.rules.hash(identifier));
        && r.Ok? && r.value.tables.nextId > 0 && key in r.value.tables.recruiters
        && r.value.tables.interactions == t.interactions[r.value.tables.nextId - 1 :=
             Interaction(process, r.value.tables.recruiters[key].id)]
        && r.value.tables.recruiters == (if key in t.recruiters then t.recruiters else
             t.recruiters[key := r.value.tables.recruiters[key]])
  {
  }

  predicate Unreviewed(t: Tables, process: Id) {
    forall ref :: ref in t.ratings && ref.etype == OverallReview ==> t.ratings[ref].parent != process
  }

  lemma RoundAccepted(s: State, p: Id, dto: RoundDto, cx: Context)
    requires Below(s.tables) && HaveParents(s.tables) && Mine(s.tables, p, cx) && Unreviewed(s.tables, p)
    ensures var r := RoundThenRating(s, p, dto, cx);
      && (r.Ok? <==> cx.rules.validMetadata(dto.roundType, dto.metadata))
      && (r.Ok? ==> Mine(r.value.tables, p, cx) && Unreviewed(r.value.tables, p))
      && (r.Err? ==> r == Err(BadMetadata))
  {
    hide DetectFlagReason;
  }

  lemma InteractionAccepted(s: State, p: Id, dto: InteractionDto, cx: Context)
    requires Below(s.tables) && HaveParents(s.tables) && Mine(s.tables, p, cx) && Unreviewed(s.tables, p)
    ensures var r := InteractionThenRating(s, p, dto, cx);
      r.Ok? && Mine(r.value.tables, p, cx) && Unreviewed(r.value.tables, p)
  {
    hide DetectFlagReason;
  }

  lemma {:induction false} RoundsAccepted(s: State, p: Id, rounds: seq<RoundDto>, cx: Context)
    requires Kept(s.tables) && Mine(s.tables, p, cx) && Unreviewed(s.tables, p)
    ensures var r := RoundsOneByOne(s, p, rounds, cx);
      && (r.Ok? <==> forall d :: d in rounds ==> cx.rules.validMetadata(d.roundType, d.metadata))
      && (r.Ok? ==> Mine(r.value.tables, p, cx) && Unreviewed(r.value.tables, p))
      && (r.Err? ==> r == Err(BadMetadata))
  {
    if rounds != [] {
      var before, last := rounds[..|rounds| - 1], rounds[|rounds| - 1];
      assert forall d :: d in rounds <==> d in before || d == last;
      RoundsAccepted(s, p, before, cx);
      RoundsGood(s, p, before, cx);
      hide RoundThenRating, Mine, Unreviewed, Grows, Below, Lettered, OneEach, OwnRecruiters, HaveParents;
      var r := RoundsOneByOne(s, p, before, cx);
      if r.Ok? { RoundAccepted(r.value, p, last, cx); }
    }
  }

  lemma {:induction false} InteractionsAccepted(s: State, p: Id, dtos: seq<InteractionDto>, cx: Context)
    requires Kept(s.tables) && Mine(s.tables, p, cx) && Unreviewed(s.tables, p)
    ensures var r := InteractionsOneByOne(s, p, dtos, cx);
      r.Ok? && Mine(r.value.tables, p, cx) && Unreviewed(r.value.tables, p)
  {
    if dtos != [] {
      var before, last := dtos[..|dtos| - 1], dtos[|dtos| - 1];
      InteractionsAccepted(s, p, before, cx);
      InteractionsGood(s, p, before, cx);
      hide InteractionThenRating, Mine, Unreviewed, Grows, Below, Lettered, OneEach, OwnRecruiters, HaveParents;
      InteractionAccepted(InteractionsOneByOne(s, p, before, cx).value, p, last, cx);
    }
  }

  lemma NewProcessIsUnreviewed(s: State, company: CompanyId, fields: nat, cx: Context)
    requires Kept(s.tables) && company in s.tables.approved
    ensures var r := CreateProcess(s, company, fields, cx);
      && r.Ok? && Kept(r.value.tables) && Mine(r.value.tables, s.tables.nextId, cx)
      && Unreviewed(r.value.tables, s.tables.nextId)
  {
    ProcessGood(s, company, fields, cx);
    hide Lettered, OwnRecruiters, OneEach, Grows;
  }

  /** In every run a bulk submission is refused for an unapproved company, or for the metadata of a
      round, and for nothing else: no part of it can be missing, forbidden or taken. */
  lemma {:induction false} SubmissionAcceptedIff(calls: seq<(Call, Context)>, company: CompanyId, dto: BulkDto,
        cx: Context)
    ensures var s := Run(calls); var r := OneByOne(s, company, dto, cx);
      if company !in s.tables.approved then r == Err(NotFound)
      else if exists d :: d in dto.rounds && !cx.rules.validMetadata(d.roundType, d.metadata) then r == Err(BadMetadata)
      else r.Ok?
  {
    RunKept(calls);
    var s := Run(calls);
    hide Run, Lettered, OwnRecruiters, OneEach, HaveParents, Grows, Below, RoundsOneByOne, InteractionsOneByOne;
    if company in s.tables.approved {
      var p := s.tables.nextId;
      NewProcessIsUnreviewed(s, company, dto.fields, cx);
      var s1 := CreateProcess(s, company, dto.fields, cx).value;
      hide CreateProcess;
      RoundsAccepted(s1, p, dto.rounds, cx);
      RoundsGood(s1, p, dto.rounds, cx);
      var r2 := RoundsOneByOne(s1, p, dto.rounds, cx);
      if r2.Ok? {
        InteractionsAccepted(r2.value, p, dto.interactions, cx);
        var s3 := InteractionsOneByOne(r2.value, p, dto.interactions, cx).value;
        if dto.overall.Some? { RatingAcceptedIff(s3, OverallReview, p, dto.overall.value, cx); }
      }
    }
  }

  // ---- nothing of a submission is lost ----

  predicate Rates(t: Tables, ref: Ref, etype: EntityType, parent: Id, dto: RatingDto, cx: Context) {
    ref in t.ratings && ref.etype == etype && t.ratings[ref] == Rating(parent, cx.candidate, dto)
  }

  ghost predicate RatingStored(t: Tables, etype: EntityType, parent: Id, rating: Option<RatingDto>, cx: Context) {
    rating.Some? ==> exists ref :: Rates(t, ref, etype, parent, rating.value, cx)
  }

  ghost predicate RoundStored(t: Tables, p: Id, d: RoundDto, cx: Context) {
    exists id ::
      && id in t.rounds && t.rounds[id] == Round(p, d.roundType, d.metadata)
      && RatingStored(t, RoundRating, id, d.rating, cx)
  }

  ghost predicate InteractionStored(t: Tables, p: Id, company: CompanyId, d: InteractionDto, cx: Context) {
    var key := (company, cx.rules.hash(d.identifier));
    && key in t.recruiters
    && exists id ::
         && id in t.interactions && t.interactions[id] == Interaction(p, t.recruiters[key].id)
         && RatingStored(t, RecruiterRating, id, d.rating, cx)
  }

  lemma RatingStaysStored(t: Tables, u: Tables, etype: EntityType, parent: Id, rating: Option<RatingDto>, cx: Context)
    requires RatingStored(t, etype, parent, rating, cx) && Extends(t.ratings, u.ratings)
    ensures RatingStored(u, etype, parent, rating, cx)
  {
    if rating.Some? {
      var ref :| Rates(t, ref, etype, parent, rating.value, cx);
      assert Rates(u, ref, etype, parent, rating.value, cx);
    }
  }

  lemma RoundStaysStored(t: Tables, u: Tables, p: Id, d: RoundDto, cx: Context)
    requires RoundStored(t, p, d, cx) && Extends(t.rounds, u.rounds) && Extends(t.ratings, u.ratings)
    ensures RoundStored(u, p, d, cx)
  {
    hide RatingStored;
    var id :| id in t.rounds && t.rounds[id] == Round(p, d.roundType, d.metadata)
      && RatingStored(t, RoundRating, id, d.rating, cx);
    RatingStaysStored(t, u, RoundRating, id, d.rating, cx);
    assert id in u.rounds;
  }

  lemma InteractionStaysStored(t: Tables, u: Tables, p: Id, company: CompanyId, d: InteractionDto, cx: Context)
    requires InteractionStored(t, p, company, d, cx) && Extends(t.interactions, u.interactions)
    requires Extends(t.recruiters, u.recruiters) && Extends(t.ratings, u.ratings)
    ensures InteractionStored(u, p, company, d, cx)
  {
    hide RatingStored;
    var key := (company, cx.rules.hash(d.identifier));
    var id :| id in t.interactions && t.interactions[id] == Interaction(p, t.recruiters[key].id)
      && RatingStored(t, RecruiterRating, id, d.rating, cx);
    RatingStaysStored(t, u, RecruiterRating, id, d.rating, cx);
    assert id in u.interactions;
  }

  lemma RatingIsStored(s: State, etype: EntityType, parent: Id, dto: RatingDto, cx: Context)
    requires CreateRating(s, etype, parent, dto, cx).Ok?
    ensures RatingStored(CreateRating(s, etype, parent, dto, cx).value.tables, etype, parent, Some(dto), cx)
  {
    hide DetectFlagReason, Taken, ParentExists;
    assert Rates(CreateRating(s, etype, parent, dto, cx).value.tables, Ref(etype, s.tables.nextId), etype, parent, dto,
        cx);
  }

  lemma RoundIsStored(s: State, p: Id, d: RoundDto, cx: Context)
    requires Kept(s.tables) && RoundThenRating(s, p, d, cx).Ok?
    ensures RoundStored(RoundThenRating(s, p, d, cx).value.tables, p, d, cx)
  {
    var s1, id := CreateRound(s, p, d, cx).value, s.tables.nextId;
    assert s1.tables.rounds[id] == Round(p, d.roundType, d.metadata);
    if d.rating.Some? {
      RoundGood(s, p, d, cx);
      RatingGood(s1, RoundRating, id, d.rating.value, cx);
      hide CreateRating, Kept;
      RatingIsStored(s1, RoundRating, id, d.rating.value, cx);
      assert id in RoundThenRating(s, p, d, cx).value.tables.rounds;
    }
  }

  lemma StoredInteraction(t: Tables, u: Tables, p: Id, id: Id, key: (CompanyId, nat), d: InteractionDto, cx: Context)
    requires key in t.recruiters && id in t.interactions && t.interactions[id] == Interaction(p, t.recruiters[key].id)
    requires key == (key.0, cx.rules.hash(d.identifier)) && RatingStored(u, RecruiterRating, id, d.rating, cx)
    requires Extends(t.interactions, u.interactions) && Extends(t.recruiters, u.recruiters)
    ensures InteractionStored(u, p, key.0, d, cx)
  {
    hide RatingStored;
    assert id in u.interactions && u.interactions[id] == Interaction(p, u.recruiters[key].id);
  }

  lemma InteractionRow(s: State, p: Id, identifier: string, cx: Context)
    requires CreateInteraction(s, p, identifier, cx).Ok?
    ensures Mine(s.tables, p, cx)
    ensures var t := CreateInteraction(s, p, identifier, cx).value.tables;
      var key := (s.tables.processes[p].company, cx.rules.hash(identifier));
      && t.nextId > 0 && key in t.recruiters && t.nextId - 1 in t.interactions
      && t.interactions[t.nextId - 1] == Interaction(p, t.recruiters[key].id)
  {
    InteractionIsWith(s, p, identifier, cx);
    hide CreateInteraction;
  }

  lemma RowsStay(s: State, r: Result<State, Error>, cx: Context)
    requires Good(s, r, cx) && r.Ok?
    ensures Extends(s.tables.interactions, r.value.tables.interactions)
    ensures Extends(s.tables.recruiters, r.value.tables.recruiters)
  {
  }

  lemma RatedInteractionIsStored(s: State, p: Id, id: Id, key: (CompanyId, nat), d: InteractionDto, cx: Context)
    requires Kept(s.tables) && d.rating.Some? && CreateRating(s, RecruiterRating, id, d.rating.value, cx).Ok?
    requires key in s.tables.recruiters && id in s.tables.interactions && key.1 == cx.rules.hash(d.identifier)
    requires s.tables.interactions[id] == Interaction(p, s.tables.recruiters[key].id)
    ensures InteractionStored(CreateRating(s, RecruiterRating, id, d.rating.value, cx).value.tables, p, key.0, d, cx)
  {
    hide *;
    var r := CreateRating(s, RecruiterRating, id, d.rating.value, cx);
    RatingGood(s, RecruiterRating, id, d.rating.value, cx);
    RatingIsStored(s, RecruiterRating, id, d.rating.value, cx);
    RowsStay(s, r, cx);
    StoredInteraction(s.tables, r.value.tables, p, id, key, d, cx);
  }

  lemma InteractionIsStored(s: State, p: Id, d: InteractionDto, cx: Context)
    requires Kept(s.tables) && InteractionThenRating(s, p, d, cx).Ok?
    ensures Mine(s.tables, p, cx)
    ensures InteractionStored(InteractionThenRating(s, p, d, cx).value.tables, p, s.tables.processes[p].company, d, cx)
  {
    hide CreateInteraction, Kept, Grows, InteractionStored, RatingStored, CreateRating, Extends, FreshIds;
    InteractionRow(s, p, d.identifier, cx);
    InteractionGood(s, p, d.identifier, cx);
    var s1 := CreateInteraction(s, p, d.identifier, cx).value;
    var id, key := s1.tables.nextId - 1, (s.tables.processes[p].company, cx.rules.hash(d.identifier));
    if d.rating.Some? {
      RatedInteractionIsStored(s1, p, id, key, d, cx);
    } else {
      NoRating(s1.tables, RecruiterRating, id, cx);
      UnratedInteractionIsStored(s1.tables, p, id, key, d, cx);
    }
  }

  lemma UnratedInteractionIsStored(t: Tables, p: Id, id: Id, key: (CompanyId, nat), d: InteractionDto, cx: Context)
    requires RatingStored(t, RecruiterRating, id, d.rating, cx) && key.1 == cx.rules.hash(d.identifier)
    requires key in t.recruiters && id in t.interactions && t.interactions[id] == Interaction(p, t.recruiters[key].id)
    ensures InteractionStored(t, p, key.0, d, cx)
  {
    hide RatingStored;
    assert key == (key.0, cx.rules.hash(d.identifier));
  }

  lemma NoRating(t: Tables, etype: EntityType, parent: Id, cx: Context)
    ensures RatingStored(t, etype, parent, None, cx)
  {
  }

  lemma {:induction false} RoundsAreStored(s: State, p: Id, rounds: seq<RoundDto>, cx: Context)
    requires Kept(s.tables) && RoundsOneByOne(s, p, rounds, cx).Ok?
    ensures forall d :: d in rounds ==> RoundStored(RoundsOneByOne(s, p, rounds, cx).value.tables, p, d, cx)
  {
    if rounds != [] {
      var before, last := rounds[..|rounds| - 1], rounds[|rounds| - 1];
      var s1 := RoundsOneByOne(s, p, before, cx).value;
      RoundsAreStored(s, p, before, cx);
      RoundsGood(s, p, before, cx);
      hide RoundStored, RoundThenRating, Kept, Extends, NewProcesses, NewRounds, NewInteractions, NewRatings;
      RoundIsStored(s1, p, last, cx);
      RoundThenRatingGood(s1, p, last, cx);
      forall d | d in rounds ensures RoundStored(RoundsOneByOne(s, p, rounds, cx).value.tables, p, d, cx) {
        if d in before { RoundStaysStored(s1.tables, RoundsOneByOne(s, p, rounds, cx).value.tables, p, d, cx); }
      }
    }
  }

  lemma {:induction false} InteractionsAreStored(s: State, p: Id, dtos: seq<InteractionDto>, cx: Context)
    requires Kept(s.tables) && Mine(s.tables, p, cx) && InteractionsOneByOne(s, p, dtos, cx).Ok?
    ensures var t' := InteractionsOneByOne(s, p, dtos, cx).value.tables;
      forall d :: d in dtos ==> InteractionStored(t', p, s.tables.processes[p].company, d, cx)
  {
    if dtos != [] {
      var before, last := dtos[..|dtos| - 1], dtos[|dtos| - 1];
      var s1, company := InteractionsOneByOne(s, p, before, cx).value, s.tables.processes[p].company;
      InteractionsAreStored(s, p, before, cx);
      InteractionsGood(s, p, before, cx);
      assert s1.tables.processes[p] == s.tables.processes[p];
      hide InteractionStored, InteractionThenRating, Kept, Extends, NewProcesses, NewRounds, NewInteractions,
          NewRatings;
      InteractionIsStored(s1, p, last, cx);
      InteractionThenRatingGood(s1, p, last, cx);
      var t' := InteractionsOneByOne(s, p, dtos, cx).value.tables;
      forall d | d in dtos ensures InteractionStored(t', p, company, d, cx) {
        if d in before { InteractionStaysStored(s1.tables, t', p, company, d, cx); }
      }
    }
  }

  /** Accepted in any run, a submission is stored in full: its process, every round and interaction
      with its rating, and the review, all under the caller's name. */
  lemma {:induction false} SubmissionIsStored(calls: seq<(Call, Context)>, company: CompanyId, dto: BulkDto,
        cx: Context)
    requires OneByOne(Run(calls), company, dto, cx).Ok?
    ensures var p, t' := Run(calls).tables.nextId, OneByOne(Run(calls), company, dto, cx).value.tables;
      && p in t'.processes && t'.processes[p] == Process(company, cx.candidate, dto.fields, cx.now)
      && (forall d :: d in dto.rounds ==> RoundStored(t', p, d, cx))
      && (forall d :: d in dto.interactions ==> InteractionStored(t', p, company, d, cx))
      && RatingStored(t', OverallReview, p, dto.overall, cx)
  {
    RunKept(calls);
    hide *;
    StoresAll(Run(calls), company, dto, cx);
  }

  lemma StoresAll(s: State, company: CompanyId, dto: BulkDto, cx: Context)
    requires Kept(s.tables) && OneByOne(s, company, dto, cx).Ok?
    ensures var p, t' := s.tables.nextId, OneByOne(s, company, dto, cx).value.tables;
      && p in t'.processes && t'.processes[p] == Process(company, cx.candidate, dto.fields, cx.now)
      && (forall d :: d in dto.rounds ==> RoundStored(t', p, d, cx))
      && (forall d :: d in dto.interactions ==> InteractionStored(t', p, company, d, cx))
      && RatingStored(t', OverallReview, p, dto.overall, cx)
  {
    var p := s.tables.nextId;
    ProcessGood(s, company, dto.fields, cx);
    var s1 := CreateProcess(s, company, dto.fields, cx).value;
    assert s1.tables.processes[p] == Process(company, cx.candidate, dto.fields, cx.now);
    hide CreateProcess, CreateRating, RoundsOneByOne, InteractionsOneByOne, Kept, RoundStored, InteractionStored,
      NewProcesses, NewRounds, NewInteractions, NewRatings;
    var s2 := RoundsOneByOne(s1, p, dto.rounds, cx).value;
    RoundsGood(s1, p, dto.rounds, cx);
    RoundsAreStored(s1, p, dto.rounds, cx);
    var s3 := InteractionsOneByOne(s2, p, dto.interactions, cx).value;
    InteractionsGood(s2, p, dto.interactions, cx);
    InteractionsAreStored(s2, p, dto.interactions, cx);
    var s4 := OneByOne(s, company, dto, cx).value;
    if dto.overall.Some? {
      RatingGood(s3, OverallReview, p, dto.overall.value, cx);
      RatingIsStored(s3, OverallReview, p, dto.overall.value, cx);
    }
    assert p in s4.tables.processes;
    StoredAtTheEnd(s2.tables, s3.tables, s4.tables, p, company, dto, cx);
  }

  lemma StoredAtTheEnd(t2: Tables, t3: Tables, t4: Tables, p: Id, company: CompanyId, dto: BulkDto, cx: Context)
    requires Grows(t2, t3, cx) && (t4 == t3 || Grows(t3, t4, cx))
    requires forall d :: d in dto.rounds ==> RoundStored(t2, p, d, cx)
    requires forall d :: d in dto.interactions ==> InteractionStored(t3, p, company, d, cx)
    ensures forall d :: d in dto.rounds ==> RoundStored(t4, p, d, cx)
    ensures forall d :: d in dto.interactions ==> InteractionStored(t4, p, company, d, cx)
  {
    if t4 == t3 { GrowsAtAll(t3, cx); }
    hide RoundStored, InteractionStored, NewProcesses, NewRounds, NewInteractions, NewRatings, Extends;
    forall d | d in dto.rounds ensures RoundStored(t4, p, d, cx) {
      RoundStaysStored(t2, t3, p, d, cx);
      RoundStaysStored(t3, t4, p, d, cx);
    }
    forall d | d in dto.interactions ensures InteractionStored(t4, p, company, d, cx) {
      InteractionStaysStored(t3, t4, p, company, d, cx);
    }
  }
}
