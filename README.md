# Ownership rule of the todo-list REST API

This project models the access-control core of a small Django REST framework
backend that serves users, todo lists and todos. The behaviour modelled is what
`src/api/views.py` adds on top of the framework:

- `IsCreatorOrReadOnly.has_object_permission`: read-only methods (GET, HEAD,
  OPTIONS) always pass. A record with no creator is open to every caller.
  Otherwise only the record's creator passes. This is `Permissions.Authorize`.
- `perform_create` in `TodoListViewSet` and `TodoViewSet`: a new record gets the
  caller as its creator when the caller is authenticated, and no creator
  otherwise. This is `Permissions.CreatorFor`.
- `UserViewSet` uses `IsAdminUser` for every action, reads included. This is
  `Permissions.UserViewSetAllows`.

The framework's handling of view-set actions is written as a function too.
Every action goes through the view-level check, which `IsCreatorOrReadOnly`
leaves permissive. Retrieve, update and destroy then look the object up (404
when missing) and apply the object-level check (403 when refused).
`Store.Step` maps a store and one request to the new store and the response.
`Store.Run` replays a sequence of requests.

`ViewSets.OwnedViewSet` is the stateful view set. It holds a map from primary
key to record and a key counter, and changes them in place. Each of its methods
is proved equal to `Store.Step`. `TodoListViewSet` and `TodoViewSet` are both
this class: they differ only in their queryset and serializer, and neither is
part of this model. So the record payload is a type parameter.

Modules: `Options` (the optional creator), `Permissions` (callers, safe methods,
the two permission rules), `Store` (request semantics and the lemmas over one
request and over sequences of requests), `ViewSets` (the in-place view set).

Modelling choices:

- A caller is `Anonymous` or `User(id, isStaff)`. Django compares model
  instances by primary key, and the anonymous user equals no stored user. So
  `obj.creator == request.user` is `IsCaller`.
- `not obj.creator` holds only for a missing creator, because Django model
  instances are always truthy.
- Primary keys come from a counter and are never reused. This stands in for
  the database's auto-increment key.
- An update replaces the payload and keeps the creator. The serializers are not
  part of this model, so nothing in the source shows that `creator` cannot be
  changed through an update. `Store.StepKeepsCreators`, `Store.CreatorPermanent`
  and `Store.CreatorKeepsControl` rest on this choice.

## Model

| member | source | states |
|---|---|---|
| `Permissions.Authorize` | src/api/views.py:19-30 | allowed exactly when the method is safe, the record has no creator, or its creator is the one this caller would be stamped with at creation |
| `Permissions.SafeMethodsAllowedForAll` | src/api/views.py:20-23 | GET, HEAD and OPTIONS are allowed for every caller, anonymous included, and every creator value |
| `Permissions.MutatingMethodsAreUnsafe` | src/api/views.py:22 | POST, PUT, PATCH and DELETE are not read-only methods, so they reach the ownership test |
| `Permissions.UnownedOpenToAll` | src/api/views.py:25-27 | a record with no creator allows every method to every caller, including a user who did not create it |
| `Permissions.OwnedMutableOnlyByOwner` | src/api/views.py:29-30 | on an owned record an unsafe method is allowed if and only if the caller is the authenticated user with the creator's key |
| `Permissions.AnonymousDeniedOnOwned` | src/api/views.py:29-30 | the anonymous caller is refused every unsafe method on an owned record |
| `Permissions.OwnershipIgnoresStaffFlag` | src/api/views.py:30 | the ownership decision depends on the user only through its key; staff status gives no extra right |
| `Permissions.IsCaller` | src/api/views.py:30 | `obj.creator == request.user`: true exactly for the two authenticated callers with the creator's key, whatever their staff flag; never for the anonymous user |
| `Permissions.IsAdminUser` | src/api/views.py:37 | `IsAdminUser`: an admin caller is never anonymous and is the user with its key and the staff flag set |
| `Permissions.CreatorFor` | src/api/views.py:47-48 | the stamped creator is present iff the caller is authenticated, and is then the caller |
| `Permissions.CreatorMayAlwaysAct` | src/api/views.py:19-30 | whoever creates a record, authenticated or not, passes the ownership rule on it with every method |
| `Permissions.UserViewSetAllows` | src/api/views.py:37 | a user action is allowed only for an authenticated staff caller |
| `Permissions.UserViewSetAdminOnly` | src/api/views.py:33-37 | for every method, reads included, a user action is allowed if and only if the caller is authenticated and staff |
| `Permissions.UserViewSetDeniesReads` | src/api/views.py:37 | a non-admin caller is refused GET, HEAD and OPTIONS on users, although the ownership rule would let it read an unowned record |
| `Store.Step` | src/api/views.py:40-60 | one view-set action (create with the stamp of lines 47-48, list, retrieve, update, destroy with the object check): a refused or failed request and a read leave the store unchanged, only an unsafe method is ever Forbidden, and the key counter never goes back |
| `Store.Run` | src/api/views.py:40-60 | replaying requests to one view set never moves the key counter back, and a sequence of reads leaves the store unchanged |
| `Store.CheckObject` | src/api/views.py:19-30 | NotFound iff the key is missing; Forbidden iff the record exists and the ownership rule refuses; no error iff it exists and the rule allows |
| `Store.SafeVerbsAreReads` | src/api/views.py:22 | of the five actions, exactly list and retrieve arrive with a read-only method |
| `Store.StepPreservesValid` | src/api/views.py:46-49 | every request keeps all stored keys below the key counter |
| `Store.CreateStampsCaller` | src/api/views.py:46-49 | creating never fails, stores the payload under a fresh key with the caller as creator iff authenticated, and leaves every other record unchanged |
| `Store.TodoStampMatchesTodoList` | src/api/views.py:57-60 | creating a todo stamps the same creator as creating a todo list for the same caller, whatever the payloads and stores; this holds by construction, since lines 46-49 and 57-60 are textually identical and are modelled by one definition |
| `Store.ReadsNeverForbidden` | src/api/views.py:20-23 | list and retrieve change nothing and are never Forbidden; retrieve fails only on a missing key and otherwise returns the stored record |
| `Store.MutationGate` | src/api/views.py:19-30 | update and destroy use an unsafe method; they are NotFound iff the key is missing, Forbidden iff the ownership rule refuses, and succeed iff the record exists and the rule allows; a successful update saves the new fields under the same key with the same creator, a successful destroy removes exactly that key, and every other record and the key counter stay as they were |
| `Store.UnownedMutableByAnyone` | src/api/views.py:25-27 | update and destroy of a record without a creator succeed for every caller |
| `Store.OwnerOnlyMutates` | src/api/views.py:29-30 | update and destroy of a record created by `u` succeed iff `u` issued them; any other caller gets Forbidden and the store is unchanged |
| `Store.StepSparesOwned` | src/api/views.py:29-30 | a request to this view set not issued by a record's owner leaves that record in place and unchanged |
| `Store.StepKeepsCreators` | src/api/views.py:46-49 | under the update-keeps-creator and never-reused-key choices: one request never changes the creator of a surviving record and never brings back a deleted key |
| `Store.RunPreservesValid` | src/api/views.py:46-49 | any sequence of requests keeps every stored key below the key counter |
| `Store.OthersNeverTouchOwned` | src/api/views.py:29-30 | through any sequence of requests to this view set none of which is issued by `u`, a record created by `u` stays stored and unchanged |
| `Store.GoneStaysGone` | src/api/views.py:46-49 | under the never-reused-key choice: once a handed-out key has been deleted, no later sequence of requests to this view set brings it back |
| `Store.CreatorPermanent` | src/api/views.py:46-49 | under the update-keeps-creator and never-reused-key choices: after any sequence of requests to this view set, a record that is still stored has its original creator |
| `Store.CreatorKeepsControl` | src/api/views.py:13-30 | a record created by user `U` can still be updated and destroyed by `U` after any later requests to this view set, as long as it exists; one created anonymously stays open to every caller |
| `Store.OwnershipScenarios` | src/api/views.py:19-30 | an anonymously created list can be deleted by another user; a list created by `u1` refuses an update by `u2` and accepts one by `u1` |
| `ViewSets.OwnedViewSet.PerformCreate` | src/api/views.py:46-49 | inserts the record under the counter's key with the stamped creator, advances the counter and keeps the key invariant, as the create request's semantics says |
| `ViewSets.OwnedViewSet.List` | src/api/views.py:40-44 | returns every stored record, for any caller, as the list request's semantics says |
| `ViewSets.OwnedViewSet.Retrieve` | src/api/views.py:20-23 | returns the response of the retrieve request's semantics and changes nothing |
| `ViewSets.OwnedViewSet.Update` | src/api/views.py:19-30 | the new map and the response are those of the update request's semantics: NotFound, Forbidden, or the fields replaced in place |
| `ViewSets.OwnedViewSet.Destroy` | src/api/views.py:19-30 | the new map and the response are those of the destroy request's semantics: NotFound, Forbidden, or the record removed |

## Left out

- The 401 answer: REST framework answers a refused unauthenticated request with `NotAuthenticated` (401, or 403 without a WWW-Authenticate header) and a refused authenticated one with `PermissionDenied` (403). The model folds both into `Forbidden`.
- `liveness_check` and `readiness_check` (src/api/views.py:62-80): each returns the constant response `ok` with status 200. This is HTTP plumbing with nothing to prove.
- The routing table in src/api/urls.py. The model only assumes its mapping of actions to methods: POST creates, GET lists and retrieves, PUT and PATCH update, DELETE destroys (`Store.Verb`).
- The ORM, the serializers (payload validation and its 400 errors) and authentication. Authentication is replaced by the `Caller` value passed with each request. The payload is an abstract type parameter.
- The models of `lists.models` are not part of this model. So the model does not capture what happens to `creator` when a user is deleted, or the link between a todo and its list.
- PATCH's field merge: `partial_update` merges the given fields into the stored ones, but the model replaces the payload in both update forms. The payload stands for the record's fields after the serializer has applied the request; `partial` only chooses the method, PATCH or PUT, that the ownership rule sees.
- Requests to other view sets: `Store.StepSparesOwned`, `Store.OthersNeverTouchOwned` and `Store.CreatorKeepsControl` cover requests to one view set only. An admin deleting user `u` through the user view set, or a deleted parent list, may delete a record or clear its creator, depending on `on_delete` in `lists.models`; the model does not capture this.
- User records themselves: only the admin gate of `UserViewSet` is modelled, not the storage of users.
- Concurrency and atomicity of store writes, which belong to the database.
- The record order of `list`: the model returns the map of stored records, because the source does not fix an ordering.
- The unused imports `timezone` and `time` (src/api/views.py:10-11).
