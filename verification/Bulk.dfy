/**
 A whole interview process submitted at once, against the endpoints that create its parts one
 by one. The clock stands still during a submission.
 */
module Bulk {
  import opened Wrappers
  import opened Queue

  type CompanyId = Id

  datatype RatingDto = RatingDto(scores: nat, text: Option<string>)
  datatype RoundDto = RoundDto(roundType: nat, metadata: nat, rating: Option<RatingDto>)
  datatype InteractionDto = InteractionDto(identifier: string, rating: Option<RatingDto>)
  datatype BulkDto = BulkDto(fields: nat, rounds: seq<RoundDto>, interactions: seq<InteractionDto>,
      overall: Option<RatingDto>)

  datatype Process = Process(company: CompanyId, candidate: Person, fields: nat, createdAt: int)
  datatype Round = Round(process: Id, roundType: nat, metadata: nat)
  datatype Recruiter = Recruiter(id: Id, displayLabel: nat)
  datatype Interaction = Interaction(process: Id, recruiter: Id)
  datatype Rating = Rating(parent: Id, candidate: Person, content: RatingDto)
  datatype QueueRow = QueueRow(ref: Ref, flag: Option<FlagReason>, deadline: int)

  datatype Tables = Tables(
    approved: set<CompanyId>, processes: map<Id, Process>, rounds: map<Id, Round>,
    recruiters: map<(CompanyId, nat), Recruiter>, interactions: map<Id, Interaction>,
    ratings: map<Ref, Rating>, queue: map<Id, QueueRow>, nextId: Id)

  /** `events` are the created events published so far. */
  datatype State = State(tables: Tables, events: seq<Ref>)

  datatype Error = NotFound | Forbidden | BadMetadata | Conflict

  /** What this model leaves open: text similarity, the metadata rules, the identifier hash. */
  datatype Rules = Rules(similar: (string, string) -> bool, blank: string -> bool,
                         validMetadata: (nat, nat) -> bool, hash: string -> nat)

  /** Who submits, when, and under which rules. */
  datatype Context = Context(candidate: Person, now: int, slaWindow: int, rules: Rules)

  const RATE_LIMIT_WINDOW := 24 * 60 * 60 * 1000
  const RATE_LIMIT_MAX_SUBMISSIONS := 3

  // ---- fraud checks ----

  function RecentProcesses(t: Tables, candidate: Person, now: int): set<Id> {
    set id | id in t.processes && t.processes[id].candidate == candidate
        && t.processes[id].createdAt >= now - RATE_LIMIT_WINDOW
  }

  predicate RateLimited(t: Tables, cx: Context) {
    |RecentProcesses(t, cx.candidate, cx.now)| >= RATE_LIMIT_MAX_SUBMISSIONS
  }

  predicate ResemblesExisting(t: Tables, etype: EntityType, text: Option<string>, rules: Rules) {
    && text.Some? && !rules.blank(text.value)
    && exists ref :: ref in t.ratings && ref.etype == etype
                     && t.ratings[ref].content.text.Some?
                     && rules.similar(t.ratings[ref].content.text.value, text.value)
  }

  /** Only one reason fits; the rate limit wins. */
  function DetectFlagReason(t: Tables, etype: EntityType, text: Option<string>, cx: Context): Option<FlagReason> {
    if RateLimited(t, cx) then Some(RateLimit)
    else if ResemblesExisting(t, etype, text, cx.rules) then Some(Duplicate)
    else None
  }

  // ---- what each insert does ----

  predicate ParentExists(t: Tables, etype: EntityType, parent: Id) {
    match etype
    case RoundRating => parent in t.rounds
    case RecruiterRating => parent in t.interactions
    case OverallReview => parent in t.processes
    case Company => false
  }

  /** One rating per candidate and round or interaction, one review per process. */
  predicate Taken(t: Tables, etype: EntityType, parent: Id, candidate: Person) {
    exists ref :: ref in t.ratings && ref.etype == etype && t.ratings[ref].parent == parent
                  && (etype == OverallReview || t.ratings[ref].candidate == candidate)
  }

  function InsertProcess(t: Tables, company: CompanyId, fields: nat, cx: Context): Tables {
    t.(processes := t.processes[t.nextId := Process(company, cx.candidate, fields, cx.now)], nextId := t.nextId + 1)
  }

  function InsertRound(t: Tables, process: Id, dto: RoundDto): Tables {
    t.(rounds := t.rounds[t.nextId := Round(process, dto.roundType, dto.metadata)], nextId := t.nextId + 1)
  }

  /** The rating and its queue entry, in one transaction. */
  function InsertRating(t: Tables, etype: EntityType, parent: Id, dto: RatingDto, cx: Context): Result<Tables, Error> {
    if !ParentExists(t, etype, parent) then Err(NotFound)
    else if Taken(t, etype, parent, cx.candidate) then Err(Conflict)
    else
      var ref := Ref(etype, t.nextId);
      Ok(t.(ratings := t.ratings[ref := Rating(parent, cx.candidate, dto)],
            queue := t.queue[t.nextId + 1 :=
              QueueRow(ref, DetectFlagReason(t, etype, dto.text, cx), cx.now + cx.slaWindow)],
            nextId := t.nextId + 2))
  }

  /** "Recruiter A" and so on, by how many the company has. */
  function LabelForIndex(index: nat): nat { 65 + index }

  function FindOrCreateRecruiter(t: Tables, company: CompanyId, identifier: string, rules: Rules): Tables {
    var key := (company, rules.hash(identifier));
    if key in t.recruiters then t else
    var priorCount := |set k | k in t.recruiters && k.0 == company|;
    t.(recruiters := t.recruiters[key := Recruiter(t.nextId, LabelForIndex(priorCount))], nextId := t.nextId + 1)
  }

  function InsertInteraction(t: Tables, company: CompanyId, process: Id, identifier: string, rules: Rules): (t': Tables)
    ensures t.nextId < t'.nextId
  {
    var found := FindOrCreateRecruiter(t, company, identifier, rules);
    var recruiter := found.recruiters[(company, rules.hash(identifier))];
    found.(interactions := found.interactions[found.nextId := Interaction(process, recruiter.id)],
        nextId := found.nextId + 1)
  }

  // ---- the endpoints that create one thing ----

  function CreateProcess(s: State, company: CompanyId, fields: nat, cx: Context): Result<State, Error> {
    if company !in s.tables.approved then Err(NotFound)
    else Ok(s.(tables := InsertProcess(s.tables, company, fields, cx)))
  }

  function CreateRound(s: State, process: Id, dto: RoundDto, cx: Context): Result<State, Error> {
    if process !in s.tables.processes then Err(NotFound)
    else if s.tables.processes[process].candidate != cx.candidate then Err(Forbidden)
    else if !cx.rules.validMetadata(dto.roundType, dto.metadata) then Err(BadMetadata)
    else Ok(s.(tables := InsertRound(s.tables, process, dto)))
  }

  /** The three rating endpoints: one transaction, then the created event. */
  function CreateRating(s: State, etype: EntityType, parent: Id, dto: RatingDto, cx: Context): Result<State, Error> {
    match InsertRating(s.tables, etype, parent, dto, cx)
    case Err(e) => Err(e)
    case Ok(t) => Ok(State(t, s.events + [Ref(etype, s.tables.nextId)]))
  }

  function CreateInteraction(s: State, process: Id, identifier: string, cx: Context): Result<State, Error> {
    if process !in s.tables.processes then Err(NotFound)
    else if s.tables.processes[process].candidate != cx.candidate then Err(Forbidden)
    else Ok(s.(tables :=
      InsertInteraction(s.tables, s.tables.processes[process].company, process, identifier, cx.rules)))
  }

  // ---- one after the other ----

  function RoundThenRating(s: State, process: Id, dto: RoundDto, cx: Context): Result<State, Error> {
    match CreateRound(s, process, dto, cx)
    case Err(e) => Err(e)
    case Ok(s') =>
      if dto.rating.None? then Ok(s') else CreateRating(s', RoundRating, s.tables.nextId, dto.rating.value, cx)
  }

  function InteractionThenRating(s: State, process: Id, dto: InteractionDto, cx: Context): Result<State, Error> {
    match CreateInteraction(s, process, dto.identifier, cx)
    case Err(e) => Err(e)
    case Ok(s') =>
      if dto.rating.None? then Ok(s') else CreateRating(s', RecruiterRating, s'.tables.nextId - 1, dto.rating.value, cx)
  }

  function RoundsOneByOne(s: State, process: Id, rounds: seq<RoundDto>, cx: Context): Result<State, Error> {
    if rounds == [] then Ok(s) else
    match RoundsOneByOne(s, process, rounds[..|rounds| - 1], cx)
    case Err(e) => Err(e)
    case Ok(s') => RoundThenRating(s', process, rounds[|rounds| - 1], cx)
  }

  function InteractionsOneByOne(s: State, process: Id, dtos: seq<InteractionDto>, cx: Context): Result<State, Error> {
    if dtos == [] then Ok(s) else
    match InteractionsOneByOne(s, process, dtos[..|dtos| - 1], cx)
    case Err(e) => Err(e)
    case Ok(s') => InteractionThenRating(s', process, dtos[|dtos| - 1], cx)
  }

  function OverallLast(s: State, process: Id, overall: Option<RatingDto>, cx: Context): Result<State, Error> {
    if overall.None? then Ok(s) else CreateRating(s, OverallReview, process, overall.value, cx)
  }

  /** Every part through its own endpoint, stopping at the first refusal. */
  function OneByOne(s: State, company: CompanyId, dto: BulkDto, cx: Context): Result<State, Error> {
    match CreateProcess(s, company, dto.fields, cx)
    case Err(e) => Err(e)
    case Ok(s1) =>
      match RoundsOneByOne(s1, s.tables.nextId, dto.rounds, cx)
      case Err(e) => Err(e)
      case Ok(s2) =>
        match InteractionsOneByOne(s2, s.tables.nextId, dto.interactions, cx)
        case Err(e) => Err(e)
        case Ok(s3) => OverallLast(s3, s.tables.nextId, dto.overall, cx)
  }

  // ---- all at once ----

  function Refs(etype: EntityType, ids: seq<Id>): (refs: seq<Ref>)
    ensures ids == [] ==> refs == []
  {
    seq(|ids|, i requires 0 <= i < |ids| => Ref(etype, ids[i]))
  }

  /** The submission's own process, and nobody touches processes afterwards. */
  predicate Owns(t: Tables, process: Id, company: CompanyId, cx: Context) {
    process in t.processes && t.processes[process].company == company && t.processes[process].candidate == cx.candidate
  }

  class BulkProcessSubmissionService {
    var tables: Tables
    var events: seq<Ref>

    function Now(): State
      reads this
    {
      State(tables, events)
    }

    constructor (tables: Tables)
      ensures Now() == State(tables, [])
    {
      this.tables, events := tables, [];
    }

    /** Rating and queue entry; on a refusal nothing is written. */
    method AddRating(etype: EntityType, parent: Id, dto: RatingDto, cx: Context) returns (r: Result<Id, Error>)
      modifies this`tables
      ensures match InsertRating(old(tables), etype, parent, dto, cx)
              case Ok(t) => r == Ok(old(tables).nextId) && tables == t
              case Err(e) => r == Err(e) && tables == old(tables)
    {
      var flagReason := DetectFlagReason(tables, etype, dto.text, cx);
      if !ParentExists(tables, etype, parent) {
        return Err(NotFound);
      }
      if Taken(tables, etype, parent, cx.candidate) {
        return Err(Conflict);
      }
      var id := tables.nextId;
      var ref := Ref(etype, id);
      tables := tables.(ratings := tables.ratings[ref := Rating(parent, cx.candidate, dto)], nextId := id + 1);
      tables := tables.(queue := tables.queue[tables.nextId := QueueRow(ref, flagReason, cx.now + cx.slaWindow)],
                        nextId := tables.nextId + 1);
      return Ok(id);
    }

    method AddRounds(process: Id, company: CompanyId, dtos: seq<RoundDto>,
          cx: Context) returns (r: Result<seq<Id>, Error>)
      requires Owns(tables, process, company, cx)
      modifies this`tables
      ensures match RoundsOneByOne(Quiet(old(tables)), process, dtos, cx)
              case Ok(s) => r.Ok? && s == State(tables, Refs(RoundRating, r.value))
                  && tables.processes == old(tables).processes
              case Err(e) => r == Err(e)
    {
      hide InsertRating, InsertRound, InsertInteraction, DetectFlagReason, RoundsOneByOne, InteractionsOneByOne, Refs;
      NoneYet(tables, process, cx);
      ghost var s := Quiet(tables);
      var ids := [];
      for i := 0 to |dtos|
        invariant RoundsOneByOne(s, process, dtos[..i], cx) == Ok(State(tables, Refs(RoundRating, ids)))
        invariant tables.processes == s.tables.processes
      {
        var dto := dtos[i];
        KeepsProcesses(tables, cx);
        RoundsOneByOneNext(s, process, dtos, i, cx);
        if !cx.rules.validMetadata(dto.roundType, dto.metadata) {
          return Err(BadMetadata);
        }
        var round := tables.nextId;
        tables := InsertRound(tables, process, dto);
        if dto.rating.Some? {
          KeepsProcesses(tables, cx);
          var added := AddRating(RoundRating, round, dto.rating.value, cx);
          if added.Err? {
            return Err(added.error);
          }
          RefsSnoc(RoundRating, ids, added.value);
          ids := ids + [added.value];
        }
      }
      assert dtos[..|dtos|] == dtos;
      return Ok(ids);
    }

    method AddInteractions(process: Id, company: CompanyId, dtos: seq<InteractionDto>,
          cx: Context) returns (r: Result<seq<Id>, Error>)
      requires Owns(tables, process, company, cx)
      modifies this`tables
      ensures match InteractionsOneByOne(Quiet(old(tables)), process, dtos, cx)
              case Ok(s) => r.Ok? && s == State(tables, Refs(RecruiterRating, r.value))
                  && tables.processes == old(tables).processes
              case Err(e) => r == Err(e)
    {
      hide InsertRating, InsertRound, InsertInteraction, DetectFlagReason, RoundsOneByOne, InteractionsOneByOne, Refs;
      NoneYet(tables, process, cx);
      ghost var s := Quiet(tables);
      var ids := [];
      for i := 0 to |dtos|
        invariant InteractionsOneByOne(s, process, dtos[..i], cx) == Ok(State(tables, Refs(RecruiterRating, ids)))
        invariant tables.processes == s.tables.processes
      {
        var dto := dtos[i];
        KeepsProcesses(tables, cx);
        InteractionsOneByOneNext(s, process, dtos, i, cx);
        tables := InsertInteraction(tables, company, process, dto.identifier, cx.rules);
        if dto.rating.Some? {
          KeepsProcesses(tables, cx);
          var added := AddRating(RecruiterRating, tables.nextId - 1, dto.rating.value, cx);
          if added.Err? {
            return Err(added.error);
          }
          RefsSnoc(RecruiterRating, ids, added.value);
          ids := ids + [added.value];
        }
      }
      assert dtos[..|dtos|] == dtos;
      return Ok(ids);
    }

    method Publish(etype: EntityType, ids: seq<Id>)
      modifies this`events
      ensures events == old(events) + Refs(etype, ids)
    {
      for i := 0 to |ids|
        invariant events == old(events) + Refs(etype, ids[..i])
      {
        events := events + [Ref(etype, ids[i])];
      }
      assert ids[..|ids|] == ids;
    }

    /** One transaction over everything, then the events: the same rows, flags and events as the
        separate endpoints would leave, or no change at all. */
    method Create(company: CompanyId, dto: BulkDto, cx: Context) returns (r: Result<Id, Error>)
      modifies this
      ensures match OneByOne(old(Now()), company, dto, cx)
              case Ok(s) => r == Ok(old(tables).nextId) && Now() == s
              case Err(e) => r == Err(e) && Now() == old(Now())
    {
      hide InsertRating, InsertInteraction, InsertRound, RoundsOneByOne, InteractionsOneByOne;
      var before := tables;
      if company !in tables.approved {
        return Err(NotFound);
      }
      var process := tables.nextId;
      tables := InsertProcess(tables, company, dto.fields, cx);
      ghost var t1 := tables;
      var rounds := AddRounds(process, company, dto.rounds, cx);
      RoundsAddEvents(t1, events, process, dto.rounds, cx);
      if rounds.Err? {
        tables := before;
        return Err(rounds.error);
      }
      ghost var t2 := tables;
      var interactions := AddInteractions(process, company, dto.interactions, cx);
      InteractionsAddEvents(t2, events + Refs(RoundRating, rounds.value), process, dto.interactions, cx);
      if interactions.Err? {
        tables := before;
        return Err(interactions.error);
      }
      var reviews := [];
      if dto.overall.Some? {
        var added := AddRating(OverallReview, process, dto.overall.value, cx);
        if added.Err? {
          tables := before;
          return Err(added.error);
        }
        reviews := [added.value];
      }
      Publish(RoundRating, rounds.value);
      Publish(RecruiterRating, interactions.value);
      Publish(OverallReview, reviews);
      return Ok(process);
    }
  }

  lemma NoneYet(t: Tables, process: Id, cx: Context)
    ensures RoundsOneByOne(Quiet(t), process, [], cx) == Ok(Quiet(t))
    ensures InteractionsOneByOne(Quiet(t), process, [], cx) == Ok(Quiet(t))
  {
  }

  lemma RefsSnoc(etype: EntityType, ids: seq<Id>, id: Id)
    ensures Refs(etype, ids + [id]) == Refs(etype, ids) + [Ref(etype, id)]
  {
  }

  lemma KeepsProcesses(t: Tables, cx: Context)
    ensures forall etype, parent, dto :: InsertRating(t, etype, parent, dto, cx).Ok? ==>
      InsertRating(t, etype, parent, dto, cx).value.processes == t.processes
    ensures forall company, process, identifier ::
      InsertInteraction(t, company, process, identifier, cx.rules).processes == t.processes
    ensures forall process, dto :: InsertRound(t, process, dto).processes == t.processes
  {
  }

  /** Before any event is published. */
  function Quiet(t: Tables): State {
    State(t, [])
  }

  /** The same outcome with `more` events published earlier. */
  function After(more: seq<Ref>, r: Result<State, Error>): Result<State, Error> {
    match r
    case Err(e) => Err(e)
    case Ok(s) => Ok(State(s.tables, more + s.events))
  }

  lemma {:induction false} RoundsOneByOneNext(s: State, process: Id, dtos: seq<RoundDto>, i: nat, cx: Context)
    requires i < |dtos|
    ensures RoundsOneByOne(s, process, dtos[..i], cx).Ok? ==>
      RoundsOneByOne(s, process, dtos[..i + 1], cx)
          == RoundThenRating(RoundsOneByOne(s, process, dtos[..i], cx).value, process, dtos[i], cx)
    ensures RoundsOneByOne(s, process, dtos[..i + 1], cx).Err? ==>
      RoundsOneByOne(s, process, dtos, cx) == RoundsOneByOne(s, process, dtos[..i + 1], cx)
  {
    hide RoundThenRating;
    assert dtos[..i + 1][..i] == dtos[..i];
    if i + 1 == |dtos| {
      assert dtos[..i + 1] == dtos;
    } else {
      var init := dtos[..|dtos| - 1];
      assert init[..i + 1] == dtos[..i + 1];
      RoundsOneByOneNext(s, process, init, i, cx);
    }
  }

  lemma {:induction false} InteractionsOneByOneNext(s: State, process: Id, dtos: seq<InteractionDto>, i: nat,
        cx: Context)
    requires i < |dtos|
    ensures InteractionsOneByOne(s, process, dtos[..i], cx).Ok? ==>
      InteractionsOneByOne(s, process, dtos[..i + 1], cx)
      == InteractionThenRating(InteractionsOneByOne(s, process, dtos[..i], cx).value, process, dtos[i], cx)
    ensures InteractionsOneByOne(s, process, dtos[..i + 1], cx).Err? ==>
      InteractionsOneByOne(s, process, dtos, cx) == InteractionsOneByOne(s, process, dtos[..i + 1], cx)
  {
    hide InteractionThenRating;
    assert dtos[..i + 1][..i] == dtos[..i];
    if i + 1 == |dtos| {
      assert dtos[..i + 1] == dtos;
    } else {
      var init := dtos[..|dtos| - 1];
      assert init[..i + 1] == dtos[..i + 1];
      InteractionsOneByOneNext(s, process, init, i, cx);
    }
  }

  /** Publishing as one goes or at the end makes no difference to the tables or the order. */
  lemma {:induction false} RoundsAddEvents(t: Tables, more: seq<Ref>, process: Id, dtos: seq<RoundDto>, cx: Context)
    ensures RoundsOneByOne(State(t, more), process, dtos, cx)
        == After(more, RoundsOneByOne(Quiet(t), process, dtos, cx))
  {
    if dtos == [] {
      assert more + [] == more;
    } else {
      var init, last := dtos[..|dtos| - 1], dtos[|dtos| - 1];
      RoundsAddEvents(t, more, process, init, cx);
      hide InsertRating, InsertRound;
      if RoundsOneByOne(Quiet(t), process, init, cx).Ok? {
        RoundAddsEvents(RoundsOneByOne(Quiet(t), process, init, cx).value, more, process, last, cx);
      }
    }
  }

  lemma RoundAddsEvents(s: State, more: seq<Ref>, process: Id, dto: RoundDto, cx: Context)
    ensures RoundThenRating(State(s.tables, more + s.events), process, dto, cx)
        == After(more, RoundThenRating(s, process, dto, cx))
  {
    hide InsertRating, InsertRound;
    assert forall ref: Ref :: more + s.events + [ref] == more + (s.events + [ref]);
  }

  lemma {:induction false} InteractionsAddEvents(t: Tables, more: seq<Ref>, process: Id,
        dtos: seq<InteractionDto>, cx: Context)
    ensures InteractionsOneByOne(State(t, more), process, dtos, cx)
        == After(more, InteractionsOneByOne(Quiet(t), process, dtos, cx))
  {
    if dtos == [] {
      assert more + [] == more;
    } else {
      var init, last := dtos[..|dtos| - 1], dtos[|dtos| - 1];
      InteractionsAddEvents(t, more, process, init, cx);
      hide InsertRating, InsertInteraction;
      if InteractionsOneByOne(Quiet(t), process, init, cx).Ok? {
        InteractionAddsEvents(InteractionsOneByOne(Quiet(t), process, init, cx).value, more, process, last, cx);
      }
    }
  }

  lemma InteractionAddsEvents(s: State, more: seq<Ref>, process: Id, dto: InteractionDto, cx: Context)
    ensures InteractionThenRating(State(s.tables, more + s.events), process, dto, cx)
        == After(more, InteractionThenRating(s, process, dto, cx))
  {
    hide InsertRating, InsertInteraction;
    assert forall ref: Ref :: more + s.events + [ref] == more + (s.events + [ref]);
  }

  // ---- what the flags of one submission say ----

  predicate FreshIds(t: Tables) {
    && (forall id :: id in t.processes ==> id < t.nextId)
    && (forall ref :: ref in t.ratings ==> ref.eid < t.nextId)
    && (forall id :: id in t.queue ==> id < t.nextId)
  }

  /** An earlier rating of the same kind resembles the text of `b`. */
  predicate Resembles(t: Tables, a: Ref, b: Ref, rules: Rules) {
    && a in t.ratings && b in t.ratings && a.etype == b.etype && a.eid < b.eid
    && t.ratings[a].content.text.Some? && t.ratings[b].content.text.Some?
    && !rules.blank(t.ratings[b].content.text.value)
    && rules.similar(t.ratings[a].content.text.value, t.ratings[b].content.text.value)
  }

  /** `b`'s queue entry carries a reason. */
  predicate Flagged(t: Tables, b: Ref) {
    b.eid + 1 in t.queue && t.queue[b.eid + 1].ref == b && t.queue[b.eid + 1].flag.Some?
  }

  /** Of what has been written since `first`: rate limits are all or none, and whatever resembles
      an earlier text is flagged. */
  ghost predicate FlagsOk(first: Id, t: Tables, processes: map<Id, Process>, cx: Context) {
    && FreshIds(t) && t.processes == processes
    && (forall id :: id in t.queue && first <= id ==> (t.queue[id].flag == Some(RateLimit) <==> RateLimited(t, cx)))
    && (forall a, b :: Resembles(t, a, b, cx.rules) && first <= b.eid ==> Flagged(t, b))
  }

  lemma RatingFlags(first: Id, t: Tables, processes: map<Id, Process>, etype: EntityType, parent: Id,
        dto: RatingDto, cx: Context)
    requires first <= t.nextId && FlagsOk(first, t, processes, cx) && InsertRating(t, etype, parent, dto, cx).Ok?
    ensures FlagsOk(first, InsertRating(t, etype, parent, dto, cx).value, processes, cx)
  {
    hide ParentExists, Taken, RateLimited;
    var t' := InsertRating(t, etype, parent, dto, cx).value;
    var ref := Ref(etype, t.nextId);
    SameLimit(t, t', cx);
    forall a, b | Resembles(t', a, b, cx.rules) && first <= b.eid ensures Flagged(t', b) {
      assert a != ref;
      if b == ref {
        assert ResemblesExisting(t, etype, dto.text, cx.rules);
      } else {
        assert Resembles(t, a, b, cx.rules);
      }
    }
  }

  lemma SameLimit(t: Tables, t': Tables, cx: Context)
    requires t'.processes == t.processes
    ensures RateLimited(t', cx) == RateLimited(t, cx)
  {
  }

  lemma OtherRowsKeepFlags(first: Id, t: Tables, t': Tables, processes: map<Id, Process>, cx: Context)
    requires FlagsOk(first, t, processes, cx) && t.nextId <= t'.nextId
    requires t'.ratings == t.ratings && t'.queue == t.queue && t'.processes == t.processes
    ensures FlagsOk(first, t', processes, cx)
  {
    hide RateLimited;
    SameLimit(t, t', cx);
    assert forall a, b :: Resembles(t', a, b, cx.rules) ==> Resembles(t, a, b, cx.rules);
    assert forall b :: Flagged(t, b) ==> Flagged(t', b);
  }

  lemma RoundFlags(first: Id, s: State, processes: map<Id, Process>, process: Id, dto: RoundDto, cx: Context)
    requires first <= s.tables.nextId && FlagsOk(first, s.tables, processes, cx)
    requires RoundThenRating(s, process, dto, cx).Ok?
    ensures var t := RoundThenRating(s, process, dto, cx).value.tables;
        first <= t.nextId && FlagsOk(first, t, processes, cx)
  {
    hide FlagsOk, ParentExists, Taken, DetectFlagReason;
    var t1 := InsertRound(s.tables, process, dto);
    OtherRowsKeepFlags(first, s.tables, t1, processes, cx);
    if dto.rating.Some? { RatingFlags(first, t1, processes, RoundRating, s.tables.nextId, dto.rating.value, cx); }
  }

  lemma InteractionFlags(first: Id, s: State, processes: map<Id, Process>, process: Id, dto: InteractionDto,
        cx: Context)
    requires first <= s.tables.nextId && FlagsOk(first, s.tables, processes, cx)
    requires InteractionThenRating(s, process, dto, cx).Ok?
    ensures var t := InteractionThenRating(s, process, dto, cx).value.tables;
        first <= t.nextId && FlagsOk(first, t, processes, cx)
  {
    hide FlagsOk, ParentExists, Taken, DetectFlagReason;
    var t1 := InsertInteraction(s.tables, s.tables.processes[process].company, process, dto.identifier, cx.rules);
    OtherRowsKeepFlags(first, s.tables, t1, processes, cx);
    if dto.rating.Some? { RatingFlags(first, t1, processes, RecruiterRating, t1.nextId - 1, dto.rating.value, cx); }
  }

  lemma {:induction false} RoundsFlags(first: Id, s: State, processes: map<Id, Process>, process: Id,
        dtos: seq<RoundDto>, cx: Context)
    requires first <= s.tables.nextId && FlagsOk(first, s.tables, processes, cx)
    requires RoundsOneByOne(s, process, dtos, cx).Ok?
    ensures var t := RoundsOneByOne(s, process, dtos, cx).value.tables;
        first <= t.nextId && FlagsOk(first, t, processes, cx)
  {
    hide FlagsOk, RoundThenRating;
    if dtos != [] {
      RoundsFlags(first, s, processes, process, dtos[..|dtos| - 1], cx);
      RoundFlags(first, RoundsOneByOne(s, process, dtos[..|dtos| - 1], cx).value, processes, process, dtos[|dtos| - 1],
          cx);
    }
  }

  lemma {:induction false} InteractionsFlags(first: Id, s: State, processes: map<Id, Process>, process: Id,
        dtos: seq<InteractionDto>, cx: Context)
    requires first <= s.tables.nextId && FlagsOk(first, s.tables, processes, cx)
    requires InteractionsOneByOne(s, process, dtos, cx).Ok?
    ensures var t := InteractionsOneByOne(s, process, dtos, cx).value.tables;
        first <= t.nextId && FlagsOk(first, t, processes, cx)
  {
    hide FlagsOk, InteractionThenRating;
    if dtos != [] {
      InteractionsFlags(first, s, processes, process, dtos[..|dtos| - 1], cx);
      InteractionFlags(first, InteractionsOneByOne(s, process, dtos[..|dtos| - 1], cx).value, processes, process,
          dtos[|dtos| - 1], cx);
    }
  }

  /** One submission counts once against the rate limit: either all of its entries carry it,
      when the candidate already had two recent processes, or none does. And a text that
      resembles an earlier one, of the same submission or not, is always flagged. */
  lemma {:induction false} FlagsOfOneSubmission(s: State, company: CompanyId, dto: BulkDto, cx: Context)
    requires FreshIds(s.tables) && OneByOne(s, company, dto, cx).Ok?
    ensures var t, t' := s.tables, OneByOne(s, company, dto, cx).value.tables;
      && (forall id :: id in t'.queue && t.nextId <= id ==>
            (t'.queue[id].flag == Some(RateLimit)
             <==> |RecentProcesses(t, cx.candidate, cx.now)| >= RATE_LIMIT_MAX_SUBMISSIONS - 1))
      && (forall a, b :: Resembles(t', a, b, cx.rules) && t.nextId <= b.eid ==> Flagged(t', b))
  {
    var t, t1 := s.tables, InsertProcess(s.tables, company, dto.fields, cx);
    OwnProcessCounts(t, company, dto.fields, cx);
    assert FlagsOk(t.nextId, t1, t1.processes, cx);
    hide FlagsOk, RoundsOneByOne, InteractionsOneByOne, InsertProcess, InsertRating, RateLimited;
    var s1 := CreateProcess(s, company, dto.fields, cx).value;
    RoundsFlags(t.nextId, s1, t1.processes, t.nextId, dto.rounds, cx);
    var s2 := RoundsOneByOne(s1, t.nextId, dto.rounds, cx).value;
    InteractionsFlags(t.nextId, s2, t1.processes, t.nextId, dto.interactions, cx);
    var s3 := InteractionsOneByOne(s2, t.nextId, dto.interactions, cx).value;
    if dto.overall.Some? {
      RatingFlags(t.nextId, s3.tables, t1.processes, OverallReview, t.nextId, dto.overall.value, cx);
    }
    ReadFlags(t.nextId, OneByOne(s, company, dto, cx).value.tables, t1, cx);
  }

  lemma ReadFlags(first: Id, t: Tables, t1: Tables, cx: Context)
    requires FlagsOk(first, t, t1.processes, cx)
    ensures forall id :: id in t.queue && first <= id ==> (t.queue[id].flag == Some(RateLimit) <==> RateLimited(t1, cx))
    ensures forall a, b :: Resembles(t, a, b, cx.rules) && first <= b.eid ==> Flagged(t, b)
  {
  }

  lemma OwnProcessCounts(t: Tables, company: CompanyId, fields: nat, cx: Context)
    requires FreshIds(t)
    ensures RateLimited(InsertProcess(t, company, fields, cx), cx)
            <==> |RecentProcesses(t, cx.candidate, cx.now)| >= RATE_LIMIT_MAX_SUBMISSIONS - 1
  {
    var t' := InsertProcess(t, company, fields, cx);
    var before, after := RecentProcesses(t, cx.candidate, cx.now), RecentProcesses(t', cx.candidate, cx.now);
    assert t.nextId !in before;
    assert after == before + {t.nextId};
  }

  // ---- whose processes count ----

  /** Process `p` counts against `candidate` at `now`: theirs, and at most a day old. */
  predicate IsRecentOf(t: Tables, p: Id, candidate: Person, now: int) {
    p in t.processes && t.processes[p].candidate == candidate && t.processes[p].createdAt >= now - 86_400_000
  }

  lemma TwoOrMore(ids: set<Id>)
    ensures |ids| >= 2 <==> exists p, q :: p in ids && q in ids && p != q
  {
    if |ids| >= 2 {
      var p :| p in ids;
      assert |ids - {p}| >= 1;
      var q :| q in ids - {p};
    }
    if p, q :| p in ids && q in ids && p != q {
      assert {p, q} <= ids && |ids| == |{p, q}| + |ids - {p, q}|;
    }
  }

  /** An entry of a submission is rate-limited exactly when the candidate already had two other
      processes created within the last twenty-four hours. */
  lemma {:induction false} LimitedIffTwoRecent(s: State, company: CompanyId, dto: BulkDto, cx: Context, id: Id)
    requires FreshIds(s.tables) && OneByOne(s, company, dto, cx).Ok?
    requires s.tables.nextId <= id && id in OneByOne(s, company, dto, cx).value.tables.queue
    ensures OneByOne(s, company, dto, cx).value.tables.queue[id].flag == Some(RateLimit)
            <==> exists p, q ::
                   p != q && IsRecentOf(s.tables, p, cx.candidate, cx.now)
                       && IsRecentOf(s.tables, q, cx.candidate, cx.now)
  {
    FlagsOfOneSubmission(s, company, dto, cx);
    var recent := RecentProcesses(s.tables, cx.candidate, cx.now);
    hide OneByOne, FreshIds, Resembles, Flagged;
    assert forall p :: p in recent <==> IsRecentOf(s.tables, p, cx.candidate, cx.now);
    TwoOrMore(recent);
    hide RecentProcesses, IsRecentOf;
  }

  /** Tables that differ in other candidates' processes only. */
  ghost predicate Alike(t: Tables, u: Tables, cx: Context) {
    && u == t.(processes := u.processes)
    && forall p :: (p in t.processes && t.processes[p].candidate == cx.candidate)
                   || (p in u.processes && u.processes[p].candidate == cx.candidate) ==>
         p in t.processes && p in u.processes && t.processes[p] == u.processes[p]
  }

  ghost predicate AlikeAnswers(r: Result<State, Error>, q: Result<State, Error>, cx: Context) {
    if r.Ok? then q.Ok? && q.value.events == r.value.events && Alike(r.value.tables, q.value.tables, cx)
    else q == r
  }

  lemma AlikeLimits(t: Tables, u: Tables, cx: Context)
    requires Alike(t, u, cx)
    ensures RateLimited(t, cx) == RateLimited(u, cx)
  {
    assert RecentProcesses(t, cx.candidate, cx.now) == RecentProcesses(u, cx.candidate, cx.now);
  }

  lemma AlikeReasons(t: Tables, u: Tables, etype: EntityType, text: Option<string>, cx: Context)
    requires Alike(t, u, cx)
    ensures DetectFlagReason(t, etype, text, cx) == DetectFlagReason(u, etype, text, cx)
  {
    AlikeLimits(t, u, cx);
    hide RateLimited;
  }

  lemma AlikeRatings(s: State, u: Tables, etype: EntityType, parent: Id, dto: RatingDto, cx: Context)
    requires Alike(s.tables, u, cx)
    requires etype == OverallReview ==>
        parent in s.tables.processes && s.tables.processes[parent].candidate == cx.candidate
    ensures AlikeAnswers(CreateRating(s, etype, parent, dto, cx),
        CreateRating(State(u, s.events), etype, parent, dto, cx), cx)
  {
    AlikeReasons(s.tables, u, etype, dto.text, cx);
    hide DetectFlagReason;
  }

  predicate Mine(t: Tables, process: Id, cx: Context) {
    process in t.processes && t.processes[process].candidate == cx.candidate
  }

  lemma AlikeRound(s: State, u: Tables, process: Id, dto: RoundDto, cx: Context)
    requires Alike(s.tables, u, cx) && Mine(s.tables, process, cx)
    ensures var r := RoundThenRating(s, process, dto, cx);
      && AlikeAnswers(r, RoundThenRating(State(u, s.events), process, dto, cx), cx)
      && (r.Ok? ==> Mine(r.value.tables, process, cx))
  {
    hide InsertRating;
    var t', u' := InsertRound(s.tables, process, dto), InsertRound(u, process, dto);
    assert Alike(t', u', cx);
    if dto.rating.Some? {
      AlikeRatings(State(t', s.events), u', RoundRating, s.tables.nextId, dto.rating.value, cx);
      RatingKeepsProcesses(t', RoundRating, s.tables.nextId, dto.rating.value, cx);
    }
  }

  lemma RatingKeepsProcesses(t: Tables, etype: EntityType, parent: Id, dto: RatingDto, cx: Context)
    ensures var r := InsertRating(t, etype, parent, dto, cx); r.Ok? ==> r.value.processes == t.processes
  {
  }

  lemma FindIgnoresProcesses(t: Tables, processes: map<Id, Process>, company: CompanyId, identifier: string,
        rules: Rules)
    ensures var found := FindOrCreateRecruiter(t, company, identifier, rules);
      && FindOrCreateRecruiter(t.(processes := processes), company, identifier, rules)
         == found.(processes := processes)
      && found.processes == t.processes && (company, rules.hash(identifier)) in found.recruiters
  {
    var u := t.(processes := processes);
    if (company, rules.hash(identifier)) !in t.recruiters {
      assert (set k | k in t.recruiters && k.0 == company) == (set k | k in u.recruiters && k.0 == company);
    }
  }

  lemma AlikeJoin(t: Tables, u: Tables, company: CompanyId, process: Id, identifier: string, cx: Context)
    requires Alike(t, u, cx)
    ensures var t' := InsertInteraction(t, company, process, identifier, cx.rules);
      Alike(t', InsertInteraction(u, company, process, identifier, cx.rules), cx) && t'.processes == t.processes
  {
    FindIgnoresProcesses(t, u.processes, company, identifier, cx.rules);
    hide FindOrCreateRecruiter;
  }

  lemma AlikeInteraction(s: State, u: Tables, process: Id, dto: InteractionDto, cx: Context)
    requires Alike(s.tables, u, cx) && Mine(s.tables, process, cx)
    ensures var r := InteractionThenRating(s, process, dto, cx);
      && AlikeAnswers(r, InteractionThenRating(State(u, s.events), process, dto, cx), cx)
      && (r.Ok? ==> Mine(r.value.tables, process, cx))
  {
    hide InsertRating, InsertInteraction;
    var company := s.tables.processes[process].company;
    var t' := InsertInteraction(s.tables, company, process, dto.identifier, cx.rules);
    var u' := InsertInteraction(u, company, process, dto.identifier, cx.rules);
    AlikeJoin(s.tables, u, company, process, dto.identifier, cx);
    if dto.rating.Some? {
      AlikeRatings(State(t', s.events), u', RecruiterRating, t'.nextId - 1, dto.rating.value, cx);
      RatingKeepsProcesses(t', RecruiterRating, t'.nextId - 1, dto.rating.value, cx);
    }
  }

  lemma {:induction false} AlikeRounds(s: State, u: Tables, process: Id, dtos: seq<RoundDto>, cx: Context)
    requires Alike(s.tables, u, cx) && Mine(s.tables, process, cx)
    ensures var r := RoundsOneByOne(s, process, dtos, cx);
      && AlikeAnswers(r, RoundsOneByOne(State(u, s.events), process, dtos, cx), cx)
      && (r.Ok? ==> Mine(r.value.tables, process, cx))
  {
    if dtos != [] {
      var init := dtos[..|dtos| - 1];
      AlikeRounds(s, u, process, init, cx);
      hide Alike, Mine, RoundThenRating;
      var r, q := RoundsOneByOne(s, process, init, cx), RoundsOneByOne(State(u, s.events), process, init, cx);
      if r.Ok? { AlikeRound(r.value, q.value.tables, process, dtos[|dtos| - 1], cx); }
    }
  }

  lemma {:induction false} AlikeInteractions(s: State, u: Tables, process: Id, dtos: seq<InteractionDto>, cx: Context)
    requires Alike(s.tables, u, cx) && Mine(s.tables, process, cx)
    ensures var r := InteractionsOneByOne(s, process, dtos, cx);
      && AlikeAnswers(r, InteractionsOneByOne(State(u, s.events), process, dtos, cx), cx)
      && (r.Ok? ==> Mine(r.value.tables, process, cx))
  {
    if dtos != [] {
      var init := dtos[..|dtos| - 1];
      AlikeInteractions(s, u, process, init, cx);
      hide Alike, Mine, InteractionThenRating;
      var r, q := InteractionsOneByOne(s, process, init, cx),
          InteractionsOneByOne(State(u, s.events), process, init, cx);
      if r.Ok? { AlikeInteraction(r.value, q.value.tables, process, dtos[|dtos| - 1], cx); }
    }
  }

  /** Other candidates' processes, present or not, change nothing about a submission: neither
      whether it is refused and how, nor its queue entries with their flags. */
  lemma {:induction false} OthersChangeNothing(s: State, others: Tables, company: CompanyId, dto: BulkDto, cx: Context)
    requires Alike(s.tables, others, cx)
    ensures var r, q := OneByOne(s, company, dto, cx), OneByOne(State(others, s.events), company, dto, cx);
      if r.Ok? then q.Ok? && q.value.tables.queue == r.value.tables.queue && q.value.events == r.value.events
      else q == r
  {
    if company in s.tables.approved {
      var t1, u1 := InsertProcess(s.tables, company, dto.fields, cx), InsertProcess(others, company, dto.fields, cx);
      var p := s.tables.nextId;
      assert Alike(t1, u1, cx) && Mine(t1, p, cx);
      AlikeRounds(State(t1, s.events), u1, p, dto.rounds, cx);
      hide RoundsOneByOne, InteractionsOneByOne, InsertRating, InsertProcess;
      var r2 := RoundsOneByOne(State(t1, s.events), p, dto.rounds, cx);
      var q2 := RoundsOneByOne(State(u1, s.events), p, dto.rounds, cx);
      if r2.Ok? {
        AlikeInteractions(r2.value, q2.value.tables, p, dto.interactions, cx);
        var r3 := InteractionsOneByOne(r2.value, p, dto.interactions, cx);
        var q3 := InteractionsOneByOne(q2.value, p, dto.interactions, cx);
        if r3.Ok? && dto.overall.Some? {
          AlikeRatings(r3.value, q3.value.tables, OverallReview, p, dto.overall.value, cx);
        }
      }
    }
  }
}
