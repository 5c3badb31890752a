# Occhab stations endpoints and the GeoNature HTTP interceptor, modelled in Dafny

This project models two small decision layers of GeoNature.

**Occhab station endpoints** (module `OcchabBlueprint`, file `occhab_blueprint.dfy`). These are the Flask
routes that list, read, create, update and delete survey stations, plus the lookup of default
nomenclatures. The model covers the rules inside the routes:

- how the listing builds its serialised field list (`only`) from the `habitats` and
  `nomenclatures` flags, and how it validates `format`;
- the guard chain of a create or update: CRUVED scope threshold for the action (C or U), id match,
  instance permission on update, dataset existence, dataset permission under the create scope, and
  only then persistence;
- the guard chain of get and delete: not found first, then instance permission;
- the dictionary of default nomenclatures built from `(type, default id)` rows.

The station table is the class `StationStore`, with a field `stations: map<nat, Station>` that the
write methods reassign. Datasets and nomenclatures are maps. The query filtered by scope is given as
its result. `has_instance_permission` is a function parameter for stations and another for datasets.
The SQL function `get_default_nomenclature_value` is a function parameter. The id that the database
gives a new row is a parameter too.

**HTTP interceptor** (module `HttpInterceptor`, file `http_interceptor.dfy`, with `JsStrings` in
`js_strings.dfy` for JavaScript's `String.prototype.split`). The model covers:

- `extractHostname`;
- the decision to clone a request with `withCredentials: true`;
- the choice of title, message and HTML flag in `handleError`;
- the fact that `intercept` rethrows the error it caught.

The toast and the public sign-in are returned as an `ErrorEffects` value instead of being performed.

Behaviour kept as the code has it:

- The instance permission on an update is checked against the station loaded from the payload,
  not against the stored one.
- An update does not require a station to exist under the path id: the payload is stored under
  that id either way.
- The check is `if id_station and ...`, so an update of path id `0` skips the station's
  instance permission (`StationPermissionOnlyOnTruthyId`).
- A scope map without the needed action raises `KeyError`, modelled as `InternalError`. So does a
  truthy default id that names no nomenclature record, because `None.as_dict()` raises.

## Model

| member | source | states |
|---|---|---|
| `OcchabBlueprint.StatusCode` | contrib/gn_module_occhab/backend/gn_module_occhab/blueprint.py:186-188 | 204 exactly for the empty body of a delete; 400, 403 and 404 for BadRequest, Forbidden and NotFound |
| `OcchabBlueprint.ListShapeFields` | contrib/gn_module_occhab/backend/gn_module_occhab/blueprint.py:61-78 | `only` begins with `observers`, `dataset`; contains `habitats` and `habitats.habref` iff the habitats flag is a nonzero int; contains each of `Station.__nomenclatures__` iff the nomenclatures flag is; no field twice; its length |
| `OcchabBlueprint.ParseFormat` | contrib/gn_module_occhab/backend/gn_module_occhab/blueprint.py:80-82 | the format defaults to geojson; it is refused with `BadRequest("Unsupported format")` exactly when it is neither `json` nor `geojson` |
| `OcchabBlueprint.ListStations` | contrib/gn_module_occhab/backend/gn_module_occhab/blueprint.py:53-88 | an unsupported format gives the BadRequest and no dump; otherwise the visible stations are dumped in the chosen format with the `ListShape` fields; every dumped relation is eager-loaded and nothing else is |
| `OcchabBlueprint.FetchPermitted` | contrib/gn_module_occhab/backend/gn_module_occhab/blueprint.py:106-112 | NotFound iff the id is absent; Forbidden iff present and not permitted; otherwise the stored station |
| `OcchabBlueprint.StationStore.GetStation` | contrib/gn_module_occhab/backend/gn_module_occhab/blueprint.py:91-114 | succeeds iff the station exists and is permitted, then dumps it as a feature with observers, dataset and habitats; otherwise the error of the fetch guard |
| `OcchabBlueprint.ActionFor` | contrib/gn_module_occhab/backend/gn_module_occhab/blueprint.py:140-143 | the action is create iff there is no path id, update iff there is one |
| `OcchabBlueprint.CreateOrUpdateDecision` | contrib/gn_module_occhab/backend/gn_module_occhab/blueprint.py:139-168 | the guard chain in the endpoint's order, each guard with its own error once the earlier ones pass: missing scope key gives an internal error; scope below 1 gives `Forbidden("You do not have C/U permission on stations.")`; id mismatch gives `BadRequest("Unmatching id_station.")`; failed station permission on a truthy id gives `Forbidden("You do not have access to this station.")`; missing dataset gives `BadRequest("Unexisting dataset")`; failed dataset permission under `scopes["C"]` gives `Forbidden("You do not have access to this dataset.")`. When it accepts, the station to persist is the loaded payload unchanged |
| `OcchabBlueprint.DecisionAcceptsExactlyWhenGuardsPass` | contrib/gn_module_occhab/backend/gn_module_occhab/blueprint.py:139-168 | a write is accepted iff: scope for the action >= 1; payload id equals path id; instance permission when the path id is truthy; dataset exists; dataset permitted under `scopes["C"]` |
| `OcchabBlueprint.InsufficientScopeForbidsBeforePayload` | contrib/gn_module_occhab/backend/gn_module_occhab/blueprint.py:139-159 | with the action's scope below 1 the outcome is Forbidden, whatever the payload, datasets and permissions |
| `OcchabBlueprint.CreateWithPayloadIdRejected` | contrib/gn_module_occhab/backend/gn_module_occhab/blueprint.py:160-161 | a create (no path id) whose payload carries an id gives `BadRequest("Unmatching id_station.")` |
| `OcchabBlueprint.StationPermissionOnlyOnTruthyId` | contrib/gn_module_occhab/backend/gn_module_occhab/blueprint.py:162-163 | with no path id, or path id 0, the station's instance permission has no effect on the outcome |
| `OcchabBlueprint.UpdateNeedsCreateScopeOnDataset` | contrib/gn_module_occhab/backend/gn_module_occhab/blueprint.py:164-168 | an update whose dataset is not permitted under the create scope is refused |
| `OcchabBlueprint.StationStore.CreateOrUpdateStation` | contrib/gn_module_occhab/backend/gn_module_occhab/blueprint.py:126-171 | on any guard failure the error is returned and the stations are unchanged; an update stores the payload under the path id (replacing habitats and observers wholesale); a create stores it under the new id, or fails with nothing stored if that id is taken; every stored station keeps the id it is stored under |
| `OcchabBlueprint.StationStore.DeleteStation` | contrib/gn_module_occhab/backend/gn_module_occhab/blueprint.py:174-188 | NotFound or Forbidden leave the stations unchanged; otherwise exactly that station is removed and 204 is returned |
| `OcchabBlueprint.UpdateThenGetThenDelete` | contrib/gn_module_occhab/backend/gn_module_occhab/blueprint.py:106-188 | after an accepted update, a get returns exactly the payload with its habitats; after the delete, the get is NotFound and the table is the original minus that id |
| `OcchabBlueprint.OrganismOf` | contrib/gn_module_occhab/backend/gn_module_occhab/blueprint.py:322-324 | the organism is the integer 0 unless the parameter is given, then its text |
| `OcchabBlueprint.Distinct` | contrib/gn_module_occhab/backend/gn_module_occhab/blueprint.py:327-328 | the distinct types: the same types as the column, each once |
| `OcchabBlueprint.KeepListed` | contrib/gn_module_occhab/backend/gn_module_occhab/blueprint.py:333-334 | keeps exactly the types in the requested list, and keeps them distinct |
| `OcchabBlueprint.SelectDefaults` | contrib/gn_module_occhab/backend/gn_module_occhab/blueprint.py:327-335 | one row per distinct type of the table; filtered by `mnemonique` only when that list is non-empty; each row carries the SQL function's default for the organism |
| `OcchabBlueprint.FormatDefaults` | contrib/gn_module_occhab/backend/gn_module_occhab/blueprint.py:337-343 | succeeds iff every truthy default id names a record (else an internal error); keys are exactly the rows' types; each maps to null iff its id is falsy, to the looked-up record otherwise |
| `OcchabBlueprint.GetDefaultNomenclatures` | contrib/gn_module_occhab/backend/gn_module_occhab/blueprint.py:312-343 | keys are the table's types, restricted to `mnemonique` only when it is non-empty; null iff the default for the organism (0 by default) is falsy; fails iff a requested truthy default names no record |
| `JsStrings.Split` | frontend/src/app/services/http.interceptor.ts:94-102 | `split(c)` gives at least one piece; no piece contains `c`; the first piece is the string up to its first `c` (all of it when there is none) |
| `JsStrings.JoinSplit` | frontend/src/app/services/http.interceptor.ts:94-102 | joining the pieces with the separator gives back the string |
| `JsStrings.SplitWithoutSeparator` | frontend/src/app/services/http.interceptor.ts:100-102 | a string without the separator splits into itself alone |
| `JsStrings.AdjacentSeparatorsSplitInThree` | frontend/src/app/services/http.interceptor.ts:93-94 | two adjacent separators give at least three pieces |
| `HttpInterceptor.DoubleSlashHasThirdPiece` | frontend/src/app/services/http.interceptor.ts:93-94 | when the url contains `//`, `url.split('/')[2]` exists |
| `HttpInterceptor.HostSegment` | frontend/src/app/services/http.interceptor.ts:93-97 | the segment is piece 2 of `split('/')` when the url contains `//`, piece 0 otherwise; it has no `/` |
| `HttpInterceptor.ExtractHostname` | frontend/src/app/services/http.interceptor.ts:89-105 | the hostname is the chosen segment cut at its first `:` or `?`: it contains no `/`, `:` or `?`, is a prefix of the segment, and is either the whole segment or followed in it by `:` or `?` |
| `HttpInterceptor.ExtractHostnameIdempotent` | frontend/src/app/services/http.interceptor.ts:89-105 | extracting the hostname of a hostname changes nothing |
| `HttpInterceptor.PrepareRequest` | frontend/src/app/services/http.interceptor.ts:70-77 | the request gets `withCredentials: true` iff `API_ENDPOINT` is set and has the same hostname as the url; otherwise it is passed on unchanged; url and verb never change |
| `HttpInterceptor.PrepareRequestIdempotent` | frontend/src/app/services/http.interceptor.ts:70-77 | preparing a prepared request changes nothing |
| `HttpInterceptor.CredentialsDependOnHostnameOnly` | frontend/src/app/services/http.interceptor.ts:70-73 | two urls with the same hostname get the same credentials decision |
| `HttpInterceptor.StructuredToast` | frontend/src/app/services/http.interceptor.ts:45-50 | title is the body's `name`; message is its `description`, plus the request-id line iff `request_id` is present; HTML on |
| `HttpInterceptor.HandleError` | frontend/src/app/services/http.interceptor.ts:26-66 | 404 and 401 give no toast; public sign-in iff 401, `access=public` and `PUBLIC_ACCESS_USERNAME` set; structured body gives `StructuredToast`; other HTTP errors give `error.name`/`error.message` with HTML off; non-HTTP errors give `Erreur`/`Une erreur inconnue est survenue.`. A `null` body counts as unstructured (see Findings) |
| `HttpInterceptor.HandleErrorAsWritten` | frontend/src/app/services/http.interceptor.ts:40-44 | throws (a TypeError) iff the error is an HTTP error other than 401/404 with a `null` body; otherwise behaves as `HandleError` |
| `HttpInterceptor.Intercept` | frontend/src/app/services/http.interceptor.ts:68-87 | the request handed on is the prepared one |
| `HttpInterceptor.InterceptRethrowsOriginal` | frontend/src/app/services/http.interceptor.ts:81-86 | the caller observes exactly what the next handler produced; a response has no effects; an error is rethrown unchanged after `handleError` |
| `HttpInterceptor.InterceptAsWritten` | frontend/src/app/services/http.interceptor.ts:81-86 | the request handed on is the prepared one; a response passes through with no effects; on an error, when the as-written handler returns, the original error is rethrown with its effects, and when it throws, that exception replaces the original error and no toast is shown |
| `HttpInterceptor.NullBodyErrorIsLostAsWritten` | frontend/src/app/services/http.interceptor.ts:40-44 | as written, a 500 with a `null` body gives no toast and a TypeError instead of the original error; the corrected handler shows a toast and rethrows the original |

## Findings

| source | as written | input that shows it | evidently intended | confidence | as-written member | corrected member |
|---|---|---|---|---|---|---|
| frontend/src/app/services/http.interceptor.ts:40-44 | `typeof error.error === 'object'` is true for `null`, and then `'name' in error.error` throws a TypeError. The TypeError escapes `catchError`, so no toast is shown and subscribers get the TypeError instead of the `HttpErrorResponse`. | an `HttpErrorResponse` with status 500 and an empty (`null`) body | a `null` body is unstructured: toast with `error.name` / `error.message`, HTML off, original error rethrown | medium, not executed | `HttpInterceptor.NullBodyErrorIsLostAsWritten` (on `HandleErrorAsWritten`, `InterceptAsWritten`) | `HttpInterceptor.HandleError` (used by `Intercept`; `InterceptRethrowsOriginal`) |

## Left out

- SQLAlchemy query building is not modelled. The scope filter is given as its result (`visible`). `get_or_404` and `one_or_none` are map lookups. The `joinedload`/`raiseload` options become the set of relation names loaded.
- Marshmallow `StationSchema` load and dump, `geojsonify` and `jsonify` are foreign serialisers. A dump is a value naming its fields. The loaded payload is an input. Load errors (`ValidationError`), `unknown=EXCLUDE` and the dump-only `habitats.id_station` are not modelled.
- The bodies of `has_instance_permission`, `get_scopes_by_action` and `check_cruved_scope` are not modelled. They are function parameters and plain inputs. Whatever the decorators themselves refuse, and `login_required`, are not modelled.
- The `db.session` transaction is not modelled as such. A commit becomes a map update. The only commit failure modelled is an id already taken by a create.
- `Station.__nomenclatures__` is defined in the station models, which are not part of this model. It is a parameter.
- The `type=int` conversion of query flags is not modelled. A flag is the converted integer, or `None` when absent or not convertible.
- The commented-out listing and export code (blueprint.py:191-309) is dead code. The `pprint` of the payload (blueprint.py:156-158) is I/O.
- contrib/gn_module_occhab/frontend/app/services/data.service.ts is only URL-building wrappers around `HttpClient`.
- Toastr display and its constant options (`disableTimeOut`, `tapToDismiss`, `closeButton`, `easeTime`) are left out. The toast is its message, title and HTML flag.
- rxjs, Angular dependency injection and `authService.signinPublicUser` are left out. Sign-in is a returned flag, and the next handler is a function parameter.
- The parsing of `window.location` with `URLSearchParams` is left out. The `access` parameter is an input.
- JavaScript values in an error body are modelled by their string forms. So is the template-string conversion of `request_id`.
