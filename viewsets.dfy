/** A todo-list or todo view set holding its records in place. Both
    `TodoListViewSet` and `TodoViewSet` are this class, with their own
    payload type; every method is tied to the request semantics in `Store`. */
module ViewSets {
  import opened Options
  import opened Permissions
  import opened Store

  class OwnedViewSet<P> {
    var rows: map<RecordId, Record<P>>
    var nextId: RecordId

    function State(): StoreState<P>
      reads this
    {
      StoreState(rows, nextId)
    }

    ghost predicate Valid()
      reads this
    {
      Store.Valid(State())
    }

    constructor ()
      ensures Valid() && State() == Empty()
    {
      rows := map[];
      nextId := 0;
    }

    /** `perform_create`: save the payload under a fresh key, with the caller
        as creator if it is authenticated and none otherwise. */
    method PerformCreate(caller: Caller, data: P) returns (id: RecordId)
      requires Valid()
      modifies this
      ensures Valid()
      ensures (State(), Created(id)) == Step(old(State()), CreateReq(caller, data))
    {
      var creator := CreatorFor(caller);
      id := nextId;
      rows := rows[id := Record(data, creator)];
      nextId := nextId + 1;
    }

    /** `list`: every stored record, for any caller. */
    method List(caller: Caller) returns (r: Response<P>)
      requires Valid()
      ensures (State(), r) == Step(State(), ListReq(caller))
    {
      r := Listed(rows);
    }

    /** `retrieve`: look the record up, then apply the ownership rule with
        GET, which every caller passes. */
    method Retrieve(caller: Caller, id: RecordId) returns (r: Response<P>)
      requires Valid()
      ensures (State(), r) == Step(State(), RetrieveReq(caller, id))
    {
      if id !in rows {
        return Failed(NotFound);
      }
      var rec := rows[id];
      var allowed := Authorize("GET", caller, rec.creator);
      r := if allowed then Found(rec) else Failed(Forbidden);
    }

    /** `update` and `partial_update`: look the record up, refuse unless the
        ownership rule allows the caller, then replace its fields in place. */
    method Update(caller: Caller, partial: bool, id: RecordId, data: P) returns (r: Response<P>)
      requires Valid()
      modifies this
      ensures Valid()
      ensures (State(), r) == Step(old(State()), UpdateReq(caller, partial, id, data))
    {
      if id !in rows {
        return Failed(NotFound);
      }
      var rec := rows[id];
      if !Authorize(UpdateVerb(partial), caller, rec.creator) {
        return Failed(Forbidden);
      }
      rec := rec.(data := data);
      rows := rows[id := rec];
      r := Updated(rec);
    }

    /** `destroy`: look the record up, refuse unless the ownership rule
        allows the caller, then remove it. */
    method Destroy(caller: Caller, id: RecordId) returns (r: Response<P>)
      requires Valid()
      modifies this
      ensures Valid()
      ensures (State(), r) == Step(old(State()), DestroyReq(caller, id))
    {
      if id !in rows {
        return Failed(NotFound);
      }
      if !Authorize("DELETE", caller, rows[id].creator) {
        return Failed(Forbidden);
      }
      rows := rows - {id};
      r := Destroyed;
    }
  }
}
