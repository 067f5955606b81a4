/**
 * The VTN's in-memory storage: one map from id to stored record per kind
 * of object, with the create/retrieve/list/update/delete operations of its
 * `Crud` implementations. Each operation is a pure function from the old
 * map to the new map and the result; the lock around the map is left out,
 * so operations happen one at a time.
 */
module Stores {
  import opened Wrappers
  import opened Ids
  import opened Intervals
  import opened Listing
  import Programs
  import Events
  import Reports
  import Queries
  import AppErrors

  type Store<K, C> = map<K, Stored<K, C>>

  /** Every record is filed under its own id. */
  predicate IdsConsistent<K, C>(s: Store<K, C>)
  {
    forall k :: k in s ==> s[k].id == k
  }

  /** `order` lists every key exactly once: it stands for the map's iteration order. */
  predicate IsOrder<K, C>(s: Store<K, C>, order: seq<K>)
  {
    && (forall i, j :: 0 <= i < j < |order| ==> order[i] != order[j])
    && (forall k :: k in s ==> k in order)
    && (forall k :: k in order ==> k in s)
  }

  /** `values()`: the records in iteration order. */
  function Values<K, C>(s: Store<K, C>, order: seq<K>): (vs: seq<Stored<K, C>>)
    requires IsOrder(s, order)
    ensures |vs| == |order| && forall i :: 0 <= i < |order| ==> vs[i] == s[order[i]]
  {
    seq(|order|, i requires 0 <= i < |order| => s[order[i]])
  }

  /** `retrieve`: the stored record or `NotFound`; the store is not changed. */
  function Retrieve<K, C>(s: Store<K, C>, id: K): (r: Result<Stored<K, C>, AppErrors.AppError>)
    ensures r.Ok? <==> id in s
    ensures r.Ok? ==> r.value == s[id]
    ensures r.Err? ==> r.error == AppErrors.NotFound
  {
    if id in s then Ok(s[id]) else Err(AppErrors.NotFound)
  }

  /**
   * `create` without a conflict check: a new record under the fresh id
   * `newId`, created and modified at `now`.
   */
  function Insert<K, C>(s: Store<K, C>, newId: K, now: int, c: C): (r: (Store<K, C>, Stored<K, C>))
    requires newId !in s
    ensures r.1.id == newId && r.1.content == c && r.1.createdDateTime == now && r.1.modificationDateTime == now
    ensures r.0.Keys == s.Keys + {newId} && r.0[newId] == r.1
    ensures forall k :: k in s ==> r.0[k] == s[k]
  {
    var rec := Stored(newId, now, now, c);
    (s[newId := rec], rec)
  }

  /**
   * `update` without a conflict check: on a present id, the content is
   * replaced and the modification time refreshed to `now`; the id, the
   * creation time and every other record stay. On an absent id, `NotFound`
   * and no change.
   */
  function Update<K, C>(s: Store<K, C>, id: K, now: int, c: C): (r: (Store<K, C>, Result<Stored<K, C>, AppErrors.AppError>))
    ensures r.1.Ok? <==> id in s
    ensures r.1.Err? ==> r.0 == s && r.1.error == AppErrors.NotFound
    ensures r.1.Ok? ==>
      && r.1.value.id == s[id].id && r.1.value.createdDateTime == s[id].createdDateTime
      && r.1.value.content == c && r.1.value.modificationDateTime == now
    ensures r.1.Ok? ==> r.0.Keys == s.Keys && r.0[id] == r.1.value && forall k :: k in s && k != id ==> r.0[k] == s[k]
  {
    if id in s then
      var rec := s[id].(content := c, modificationDateTime := now);
      (s[id := rec], Ok(rec))
    else (s, Err(AppErrors.NotFound))
  }

  /** `delete`: removes exactly that key and returns its record, or `NotFound` and no change. */
  function Delete<K, C>(s: Store<K, C>, id: K): (r: (Store<K, C>, Result<Stored<K, C>, AppErrors.AppError>))
    ensures r.1.Ok? <==> id in s
    ensures r.1.Ok? ==> r.1.value == s[id] && r.0.Keys == s.Keys - {id} && forall k :: k in r.0 ==> r.0[k] == s[k]
    ensures r.1.Err? ==> r.0 == s && r.1.error == AppErrors.NotFound
  {
    if id in s then (s - {id}, Ok(s[id])) else (s, Err(AppErrors.NotFound))
  }

  /** Insert, update and delete keep every record under its own id. */
  lemma OperationsKeepIdsConsistent<K, C>(s: Store<K, C>, id: K, now: int, c: C)
    requires IdsConsistent(s)
    ensures id !in s ==> IdsConsistent(Insert(s, id, now, c).0)
    ensures IdsConsistent(Update(s, id, now, c).0)
    ensures IdsConsistent(Delete(s, id).0)
  {
  }

  /** What is inserted can be retrieved, and an update is seen by the next retrieve. */
  lemma RetrieveAfterWrite<K, C>(s: Store<K, C>, id: K, other: K, now: int, c: C)
    requires id != other
    ensures id !in s ==> Retrieve(Insert(s, id, now, c).0, id) == Ok(Insert(s, id, now, c).1)
    ensures id !in s ==> Retrieve(Insert(s, id, now, c).0, other) == Retrieve(s, other)
    ensures id in s ==> Retrieve(Update(s, id, now, c).0, id).value.content == c
    ensures Retrieve(Delete(s, id).0, id).Err?
    ensures Retrieve(Delete(s, id).0, other) == Retrieve(s, other)
  {
  }

  // ---------------------------------------------------------------- programs

  type ProgramStore = Store<ProgramId, Programs.ProgramContent>

  /** Program names in the store are pairwise distinct. */
  predicate UniqueNames(s: ProgramStore)
  {
    forall k1, k2 :: k1 in s && k2 in s && k1 != k2 ==> s[k1].content.programName != s[k2].content.programName
  }

  /** A record other than `exclude` already carries `name`. */
  predicate NameTaken(s: ProgramStore, name: string, exclude: Option<ProgramId>)
  {
    exists k :: k in s && Some(k) != exclude && s[k].content.programName == name
  }

  /**
   * `find` over the records in iteration order: the first key, other than
   * `exclude`, whose program already has `name`.
   */
  function FindNameConflict(s: ProgramStore, order: seq<ProgramId>, name: string, exclude: Option<ProgramId>): (r: Option<ProgramId>)
    requires forall k :: k in order ==> k in s
    ensures r.Some? ==> r.value in order && Some(r.value) != exclude && s[r.value].content.programName == name
    ensures r.None? <==> forall k :: k in order && Some(k) != exclude ==> s[k].content.programName != name
  {
    if order == [] then None
    else if Some(order[0]) != exclude && s[order[0]].content.programName == name then Some(order[0])
    else FindNameConflict(s, order[1..], name, exclude)
  }

  function ConflictMessage(id: ProgramId): string
  {
    "Program with id " + ProgramIdAsStr(id) + " has the same name"
  }

  /**
   * `create` for programs: refused with `Conflict`, naming the id stored in
   * the first clashing record, when the name is taken; otherwise a plain
   * insert.
   */
  function CreateProgram(s: ProgramStore, order: seq<ProgramId>, newId: ProgramId, now: int, c: Programs.ProgramContent): (r: (ProgramStore, Result<Programs.Program, AppErrors.AppError>))
    requires IsOrder(s, order) && newId !in s
    ensures r.1.Err? <==> NameTaken(s, c.programName, None)
    ensures r.1.Err? ==> r.0 == s && r.1.error.Conflict? && r.1.error.db.None?
    ensures r.1.Err? ==> exists k :: k in s && s[k].content.programName == c.programName && r.1.error.message == ConflictMessage(s[k].id)
    ensures r.1.Ok? ==> (r.0, r.1.value) == Insert(s, newId, now, c)
  {
    match FindNameConflict(s, order, c.programName, None)
    case Some(k) => (s, Err(AppErrors.Conflict(ConflictMessage(s[k].id), None)))
    case None =>
      var (s', rec) := Insert(s, newId, now, c);
      (s', Ok(rec))
  }

  /**
   * `update` for programs. The name check comes first and ignores the
   * record being updated, so an unknown id with a taken name gives
   * `Conflict` and with a free name `NotFound`.
   */
  function UpdateProgram(s: ProgramStore, order: seq<ProgramId>, id: ProgramId, now: int, c: Programs.ProgramContent): (r: (ProgramStore, Result<Programs.Program, AppErrors.AppError>))
    requires IsOrder(s, order)
    ensures r.1.Err? && r.1.error.Conflict? <==> NameTaken(s, c.programName, Some(id))
    ensures r.1.Err? && r.1.error.NotFound? <==> !NameTaken(s, c.programName, Some(id)) && id !in s
    ensures r.1.Err? ==> r.0 == s
    ensures r.1.Err? && r.1.error.Conflict? ==>
      exists k :: k in s && k != id && s[k].content.programName == c.programName && r.1.error.message == ConflictMessage(s[k].id)
    ensures r.1.Ok? ==> r == Update(s, id, now, c)
  {
    match FindNameConflict(s, order, c.programName, Some(id))
    case Some(k) => (s, Err(AppErrors.Conflict(ConflictMessage(s[k].id), None)))
    case None => Update(s, id, now, c)
  }

  /** Create, update and delete keep program names pairwise distinct. */
  lemma ProgramOperationsKeepUniqueNames(s: ProgramStore, order: seq<ProgramId>, id: ProgramId, now: int, c: Programs.ProgramContent)
    requires UniqueNames(s) && IsOrder(s, order)
    ensures id !in s ==> UniqueNames(CreateProgram(s, order, id, now, c).0)
    ensures UniqueNames(UpdateProgram(s, order, id, now, c).0)
    ensures UniqueNames(Delete(s, id).0)
  {
    if id !in s && CreateProgram(s, order, id, now, c).1.Ok? {
      var s' := CreateProgram(s, order, id, now, c).0;
      forall k1, k2 | k1 in s' && k2 in s' && k1 != k2
        ensures s'[k1].content.programName != s'[k2].content.programName
      {
        if k1 == id {
          assert k2 in s;
        } else if k2 == id {
          assert k1 in s;
        }
      }
    }
    if UpdateProgram(s, order, id, now, c).1.Ok? {
      var s' := UpdateProgram(s, order, id, now, c).0;
      forall k1, k2 | k1 in s' && k2 in s' && k1 != k2
        ensures s'[k1].content.programName != s'[k2].content.programName
      {
        if k1 == id {
          assert k2 in s && Some(k2) != Some(id);
        } else if k2 == id {
          assert k1 in s && Some(k1) != Some(id);
        }
      }
    }
  }

  /**
   * `retrieve_all` for programs: the window `[skip, skip + limit)` of the
   * programs `matches` accepts, in iteration order. The programs' `matches`
   * is not part of this model and is a parameter. The query has been
   * validated, so `skip` and `limit` are not negative.
   */
  function RetrieveAllPrograms(s: ProgramStore, order: seq<ProgramId>, q: Queries.ListQuery, matches: Programs.Program -> Result<bool, AppErrors.AppError>): (r: Result<seq<Programs.Program>, AppErrors.AppError>)
    requires IsOrder(s, order) && q.skip >= 0 && q.limit >= 0
    ensures r.Ok? ==> |r.value| <= q.limit
    ensures r.Ok? ==> forall i :: 0 <= i < |r.value| ==> r.value[i] in s.Values && matches(r.value[i]) == Ok(true)
    ensures r.Err? <==> ErrorInWindow(FilterMatches(Values(s, order), matches), q.skip, q.limit)
    ensures (forall p :: p in s.Values ==> matches(p).Ok?) ==> r == Ok(Window(Selected(Values(s, order), matches), q.skip, q.limit))
  {
    var vs := Values(s, order);
    assert forall x :: x in vs ==> x in s.Values;
    if forall p :: p in s.Values ==> matches(p).Ok? then
      assert forall i :: 0 <= i < |vs| ==> vs[i] in s.Values;
      ListWindowWithoutErrors(vs, matches, q.skip, q.limit);
      ListWindow(vs, matches, q.skip, q.limit)
    else ListWindow(vs, matches, q.skip, q.limit)
  }

  // ------------------------------------------------------------------ events

  type EventStore = Store<EventId, Events.EventContent>

  /** The event listing's `matches` as a function of the event alone. */
  function EventFilter(q: Queries.EventQuery): Events.Event -> Result<bool, AppErrors.AppError>
  {
    (e: Events.Event) => Queries.EventMatches(q, e)
  }

  /**
   * `retrieve_all` for events: at most `limit` events the query matches,
   * from the window `[skip, skip + limit)`. A query with a program id or
   * without a target type cannot fail.
   */
  function RetrieveAllEvents(s: EventStore, order: seq<EventId>, q: Queries.EventQuery): (r: Result<seq<Events.Event>, AppErrors.AppError>)
    requires IsOrder(s, order)
    ensures r.Ok? ==> |r.value| <= q.limit
    ensures r.Ok? ==> forall i :: 0 <= i < |r.value| ==> r.value[i] in s.Values && Queries.EventMatches(q, r.value[i]) == Ok(true)
    ensures r.Err? <==> ErrorInWindow(FilterMatches(Values(s, order), EventFilter(q)), q.skip, q.limit)
    ensures q.programId.Some? || q.targetType.None? ==> r == Ok(Window(Selected(Values(s, order), EventFilter(q)), q.skip, q.limit))
  {
    var vs := Values(s, order);
    assert forall x :: x in vs ==> x in s.Values;
    if q.programId.Some? || q.targetType.None? then
      ListWindowWithoutErrors(vs, EventFilter(q), q.skip, q.limit);
      ListWindow(vs, EventFilter(q), q.skip, q.limit)
    else ListWindow(vs, EventFilter(q), q.skip, q.limit)
  }

  // ----------------------------------------------------------------- reports

  type ReportStore = Store<ReportId, Reports.ReportContent>

  /** The report listing's `matches` as a function of the report alone. */
  function ReportFilter(q: Queries.ReportQuery): Reports.Report -> Result<bool, AppErrors.AppError>
  {
    (rep: Reports.Report) => Queries.ReportMatches(q, rep)
  }

  /**
   * `retrieve_all` for reports: it never fails, and gives the window
   * `[skip, skip + limit)` of the matching reports.
   */
  function RetrieveAllReports(s: ReportStore, order: seq<ReportId>, q: Queries.ReportQuery): (r: Result<seq<Reports.Report>, AppErrors.AppError>)
    requires IsOrder(s, order)
    ensures r == Ok(Window(Selected(Values(s, order), ReportFilter(q)), q.skip, q.limit))
    ensures |r.value| <= q.limit
    ensures forall i :: 0 <= i < |r.value| ==> r.value[i] in s.Values && Queries.ReportMatches(q, r.value[i]) == Ok(true)
  {
    var vs := Values(s, order);
    assert forall x :: x in vs ==> x in s.Values;
    ListWindowWithoutErrors(vs, ReportFilter(q), q.skip, q.limit);
    ListWindow(vs, ReportFilter(q), q.skip, q.limit)
  }
}
