/** The actions of a todo-list or todo view set (REST framework's
    `ModelViewSet` with `IsCreatorOrReadOnly` and the `perform_create`
    override), as a function from a store and a request to the new store and
    the response. The store is a map from primary key to record; keys are
    handed out from a counter and never reused. */
module Store {
  import opened Options
  import opened Permissions

  type RecordId = nat

  /** A TodoList or Todo row: its serialized fields and its creator. */
  datatype Record<P> = Record(data: P, creator: Option<UserId>)

  datatype StoreState<P> = StoreState(rows: map<RecordId, Record<P>>, nextId: RecordId)

  datatype Error = NotFound | Forbidden

  /** The five view-set actions the router dispatches, with the caller that
      authentication attached to the request. */
  datatype Request<P> =
    | CreateReq(caller: Caller, data: P)
    | ListReq(caller: Caller)
    | RetrieveReq(caller: Caller, id: RecordId)
    | UpdateReq(caller: Caller, partial: bool, id: RecordId, data: P)
    | DestroyReq(caller: Caller, id: RecordId)

  datatype Response<P> =
    | Created(id: RecordId)
    | Listed(rows: map<RecordId, Record<P>>)
    | Found(record: Record<P>)
    | Updated(record: Record<P>)
    | Destroyed
    | Failed(error: Error)

  function Empty<P>(): StoreState<P> {
    StoreState(map[], 0)
  }

  /** Every stored key was handed out by the counter. */
  predicate Valid<P>(s: StoreState<P>) {
    forall id :: id in s.rows ==> id < s.nextId
  }

  /** A full update arrives as PUT, a partial one as PATCH. */
  function UpdateVerb(partial: bool): HttpMethod {
    if partial then "PATCH" else "PUT"
  }

  /** The HTTP method each action is routed from. */
  function Verb<P>(req: Request<P>): HttpMethod {
    match req
    case CreateReq(_, _) => "POST"
    case ListReq(_) => "GET"
    case RetrieveReq(_, _) => "GET"
    case UpdateReq(_, partial, _, _) => UpdateVerb(partial)
    case DestroyReq(_, _) => "DELETE"
  }

  /** `get_object`: a missing key is NotFound; otherwise the object-level
      permission is checked, and a refusal is Forbidden. */
  function CheckObject<P>(s: StoreState<P>, id: RecordId, verb: HttpMethod, caller: Caller): (e: Option<Error>)
    ensures e == Some(NotFound) <==> id !in s.rows
    ensures e == Some(Forbidden) <==> id in s.rows && !Authorize(verb, caller, s.rows[id].creator)
    ensures e.None? <==> id in s.rows && Authorize(verb, caller, s.rows[id].creator)
  {
    if id !in s.rows then Some(NotFound)
    else if !Authorize(verb, caller, s.rows[id].creator) then Some(Forbidden)
    else None
  }

  /** One request. Create and list never reach the object-level check
      (`IsCreatorOrReadOnly` keeps the permissive view-level check of
      `BasePermission`); retrieve, update and destroy go through CheckObject.
      An update replaces the fields and keeps the creator. */
  function Step<P>(s: StoreState<P>, req: Request<P>): (r: (StoreState<P>, Response<P>))
    ensures r.1.Failed? || IsSafe(Verb(req)) ==> r.0 == s
    ensures r.1 == Failed(Forbidden) ==> !IsSafe(Verb(req))
    ensures s.nextId <= r.0.nextId
  {
    match req
    case CreateReq(caller, data) =>
      (StoreState(s.rows[s.nextId := Record(data, CreatorFor(caller))], s.nextId + 1), Created(s.nextId))
    case ListReq(_) =>
      (s, Listed(s.rows))
    case RetrieveReq(caller, id) =>
      (match CheckObject(s, id, Verb(req), caller)
       case Some(e) => (s, Failed(e))
       case None => (s, Found(s.rows[id])))
    case UpdateReq(caller, _, id, data) =>
      (match CheckObject(s, id, Verb(req), caller)
       case Some(e) => (s, Failed(e))
       case None =>
         var rec := s.rows[id].(data := data);
         (s.(rows := s.rows[id := rec]), Updated(rec)))
    case DestroyReq(caller, id) =>
      match CheckObject(s, id, Verb(req), caller)
      case Some(e) => (s, Failed(e))
      case None => (s.(rows := s.rows - {id}), Destroyed)
  }

  /** The store after a sequence of requests. */
  function Run<P>(s: StoreState<P>, reqs: seq<Request<P>>): (t: StoreState<P>)
    ensures s.nextId <= t.nextId
    ensures (forall i :: 0 <= i < |reqs| ==> IsSafe(Verb(reqs[i]))) ==> t == s
    decreases |reqs|
  {
    if reqs == [] then s else Run(Step(s, reqs[0]).0, reqs[1..])
  }

  /** The request comes from user `u`. */
  predicate IssuedBy<P>(req: Request<P>, u: UserId) {
    IsCaller(u, req.caller)
  }

  // ---------------------------------------------------------------------
  // One request

  /** Only list and retrieve are routed from a read-only method. */
  lemma SafeVerbsAreReads<P>(req: Request<P>)
    ensures IsSafe(Verb(req)) <==> req.ListReq? || req.RetrieveReq?
  {
  }

  lemma StepPreservesValid<P>(s: StoreState<P>, req: Request<P>)
    requires Valid(s)
    ensures Valid(Step(s, req).0)
  {
  }

  /** Creation is never refused; it stores the payload under a fresh key,
      stamped with the caller as creator iff the caller is authenticated, and
      leaves every other record as it was. */
  lemma CreateStampsCaller<P>(s: StoreState<P>, caller: Caller, data: P)
    requires Valid(s)
    ensures var (t, r) := Step(s, CreateReq(caller, data));
      && r == Created(s.nextId)
      && s.nextId !in s.rows
      && t.rows.Keys == s.rows.Keys + {s.nextId}
      && t.rows[s.nextId].data == data
      && (t.rows[s.nextId].creator.Some? <==> IsAuthenticated(caller))
      && (caller.User? ==> t.rows[s.nextId].creator == Some(caller.id))
      && (forall id :: id in s.rows ==> t.rows[id] == s.rows[id])
      && Valid(t)
  {
  }

  /** The todo view set and the todo-list view set stamp creators the same
      way: the creator recorded depends on the caller alone, not on the kind
      of record, its payload or the store it goes into. This holds by
      construction: the two `perform_create` overrides are textually
      identical and are modelled by the one definition `Step`. */
  lemma TodoStampMatchesTodoList<P, Q>(lists: StoreState<P>, listData: P, todos: StoreState<Q>, todoData: Q, caller: Caller)
    ensures Step(lists, CreateReq(caller, listData)).0.rows[lists.nextId].creator
         == Step(todos, CreateReq(caller, todoData)).0.rows[todos.nextId].creator
  {
  }

  /** Reads change nothing and are refused to nobody; they fail only when
      the key is missing. */
  lemma ReadsNeverForbidden<P>(s: StoreState<P>, req: Request<P>)
    requires req.ListReq? || req.RetrieveReq?
    ensures Step(s, req).0 == s
    ensures Step(s, req).1 != Failed(Forbidden)
    ensures req.RetrieveReq? ==> (Step(s, req).1 == Failed(NotFound) <==> req.id !in s.rows)
    ensures req.RetrieveReq? && req.id in s.rows ==> Step(s, req).1 == Found(s.rows[req.id])
    ensures req.ListReq? ==> Step(s, req).1 == Listed(s.rows)
  {
  }

  /** Update and destroy succeed exactly when the record exists and the
      ownership rule allows the caller the request's unsafe method; a missing
      record is NotFound and a refusal is Forbidden. */
  lemma MutationGate<P>(s: StoreState<P>, req: Request<P>)
    requires req.UpdateReq? || req.DestroyReq?
    ensures !IsSafe(Verb(req))
    ensures Step(s, req).1 == Failed(NotFound) <==> req.id !in s.rows
    ensures Step(s, req).1 == Failed(Forbidden)
            <==> req.id in s.rows && !Authorize(Verb(req), req.caller, s.rows[req.id].creator)
    ensures !Step(s, req).1.Failed?
            <==> req.id in s.rows && Authorize(Verb(req), req.caller, s.rows[req.id].creator)
    ensures req.UpdateReq? && !Step(s, req).1.Failed? ==>
      var t := Step(s, req).0;
      && t.nextId == s.nextId
      && t.rows.Keys == s.rows.Keys
      && t.rows[req.id] == Record(req.data, s.rows[req.id].creator)
      && Step(s, req).1 == Updated(t.rows[req.id])
      && (forall id :: id in s.rows && id != req.id ==> t.rows[id] == s.rows[id])
    ensures req.DestroyReq? && !Step(s, req).1.Failed? ==>
      var t := Step(s, req).0;
      && t.nextId == s.nextId
      && t.rows.Keys == s.rows.Keys - {req.id}
      && Step(s, req).1 == Destroyed
      && (forall id :: id in t.rows ==> t.rows[id] == s.rows[id])
  {
  }

  /** A record nobody created can be updated and destroyed by any caller. */
  lemma UnownedMutableByAnyone<P>(s: StoreState<P>, req: Request<P>)
    requires req.UpdateReq? || req.DestroyReq?
    requires req.id in s.rows && s.rows[req.id].creator.None?
    ensures !Step(s, req).1.Failed?
  {
  }

  /** A record created by `u` can be updated or destroyed by `u` only;
      every other caller, anonymous or authenticated, is Forbidden. */
  lemma OwnerOnlyMutates<P>(s: StoreState<P>, req: Request<P>, u: UserId)
    requires req.UpdateReq? || req.DestroyReq?
    requires req.id in s.rows && s.rows[req.id].creator == Some(u)
    ensures !Step(s, req).1.Failed? <==> IssuedBy(req, u)
    ensures !IssuedBy(req, u) ==> Step(s, req) == (s, Failed(Forbidden))
  {
  }

  /** A request not issued by the owner of a record leaves that record in
      place and unchanged. */
  lemma StepSparesOwned<P>(s: StoreState<P>, req: Request<P>, id: RecordId, u: UserId)
    requires Valid(s)
    requires id in s.rows && s.rows[id].creator == Some(u)
    requires !IssuedBy(req, u)
    ensures id in Step(s, req).0.rows && Step(s, req).0.rows[id] == s.rows[id]
  {
  }

  /** One request never changes the creator of a record that survives it,
      and never brings back a key that is missing. */
  lemma StepKeepsCreators<P>(s: StoreState<P>, req: Request<P>, id: RecordId)
    requires Valid(s)
    ensures id in s.rows && id in Step(s, req).0.rows ==> Step(s, req).0.rows[id].creator == s.rows[id].creator
    ensures id !in s.rows && id < s.nextId ==> id !in Step(s, req).0.rows
    ensures s.nextId <= Step(s, req).0.nextId
  {
  }

  // ---------------------------------------------------------------------
  // Sequences of requests

  lemma {:induction false} RunPreservesValid<P>(s: StoreState<P>, reqs: seq<Request<P>>)
    requires Valid(s)
    ensures Valid(Run(s, reqs))
    decreases |reqs|
  {
    if reqs != [] {
      StepPreservesValid(s, reqs[0]);
      RunPreservesValid(Step(s, reqs[0]).0, reqs[1..]);
    }
  }

  /** As long as user `u` issues no request, nobody else can change or
      delete a record `u` created. */
  lemma {:induction false} OthersNeverTouchOwned<P>(s: StoreState<P>, reqs: seq<Request<P>>, id: RecordId, u: UserId)
    requires Valid(s)
    requires id in s.rows && s.rows[id].creator == Some(u)
    requires forall i :: 0 <= i < |reqs| ==> !IssuedBy(reqs[i], u)
    ensures id in Run(s, reqs).rows && Run(s, reqs).rows[id] == s.rows[id]
    decreases |reqs|
  {
    if reqs != [] {
      StepSparesOwned(s, reqs[0], id, u);
      StepPreservesValid(s, reqs[0]);
      OthersNeverTouchOwned(Step(s, reqs[0]).0, reqs[1..], id, u);
    }
  }

  /** A key that was once handed out and is gone never comes back. */
  lemma {:induction false} GoneStaysGone<P>(s: StoreState<P>, reqs: seq<Request<P>>, id: RecordId)
    requires Valid(s)
    requires id !in s.rows && id < s.nextId
    ensures id !in Run(s, reqs).rows
    decreases |reqs|
  {
    if reqs != [] {
      StepKeepsCreators(s, reqs[0], id);
      StepPreservesValid(s, reqs[0]);
      GoneStaysGone(Step(s, reqs[0]).0, reqs[1..], id);
    }
  }

  /** Whatever happens in between, a record that is still stored has the
      creator it was created with. */
  lemma {:induction false} CreatorPermanent<P>(s: StoreState<P>, reqs: seq<Request<P>>, id: RecordId)
    requires Valid(s)
    requires id in s.rows
    ensures id in Run(s, reqs).rows ==> Run(s, reqs).rows[id].creator == s.rows[id].creator
    decreases |reqs|
  {
    if reqs != [] {
      var t := Step(s, reqs[0]).0;
      StepKeepsCreators(s, reqs[0], id);
      StepPreservesValid(s, reqs[0]);
      if id in t.rows {
        CreatorPermanent(t, reqs[1..], id);
      } else {
        GoneStaysGone(t, reqs[1..], id);
      }
    }
  }

  /** A record that authenticated user `caller` creates stays updatable and
      deletable by that user after any later requests, for as long as it
      exists; one created anonymously stays open to every caller. */
  lemma {:induction false} CreatorKeepsControl<P>(
    s: StoreState<P>, caller: Caller, data: P, reqs: seq<Request<P>>,
    actor: Caller, partial: bool, newData: P)
    requires Valid(s)
    requires IsAuthenticated(caller) ==> IsAuthenticated(actor) && actor.id == caller.id
    ensures var id := s.nextId;
      var t := Run(Step(s, CreateReq(caller, data)).0, reqs);
      id in t.rows ==>
        && Step(t, UpdateReq(actor, partial, id, newData)).1 == Updated(Record(newData, CreatorFor(caller)))
        && Step(t, DestroyReq(actor, id)).1 == Destroyed
  {
    var id := s.nextId;
    var s1 := Step(s, CreateReq(caller, data)).0;
    CreateStampsCaller(s, caller, data);
    CreatorPermanent(s1, reqs, id);
  }

  /** The two scenarios of the ownership rule: a list created anonymously
      can be deleted by another user; a list created by one user is refused
      to a second user's update and granted to its creator's. */
  lemma OwnershipScenarios<P>(s: StoreState<P>, data: P, newData: P, u1: UserId, u2: UserId)
    requires Valid(s) && u1 != u2
    ensures var (a, _) := Step(s, CreateReq(Anonymous, data));
      Step(a, DestroyReq(User(u2, false), s.nextId)) == (a.(rows := a.rows - {s.nextId}), Destroyed)
    ensures var (b, _) := Step(s, CreateReq(User(u1, false), data));
      && Step(b, UpdateReq(User(u2, false), false, s.nextId, newData)) == (b, Failed(Forbidden))
      && Step(b, UpdateReq(User(u1, false), false, s.nextId, newData)).1
         == Updated(Record(newData, Some(u1)))
  {
  }
}
