/** The request-handling rules of the occhab stations endpoints
    (contrib/gn_module_occhab/backend/gn_module_occhab/blueprint.py): the
    response shape of the listing, the guard chains of get, create/update and
    delete, and the default-nomenclature dictionary. The ORM, the serialiser
    and the permission subsystem are abstract inputs: stations and datasets
    are maps, `has_instance_permission` is a function parameter, and a dump is
    a value naming its fields. */
module OcchabBlueprint {
  import opened Wrappers

  // ---------------------------------------------------------------------------
  // Entities and outcomes

  /** A habitat record of a station, opaque apart from its habitat code. */
  datatype Habitat = Habitat(cdHab: int)

  /** A station as loaded from a request payload or stored in the database:
      its id (`None` before it is stored), its dataset reference, and its
      nested habitats and observers (by `id_role`). */
  datatype Station = Station(idStation: Option<nat>, idDataset: Option<int>,
                             habitats: seq<Habitat>, observers: seq<nat>)

  datatype Dataset = Dataset(idDataset: int)

  /** The CRUVED actions of the permission subsystem. */
  datatype Action = Create | Read | Update | Delete | Export

  function Letter(a: Action): char {
    match a
    case Create => 'C'
    case Read => 'R'
    case Update => 'U'
    case Delete => 'D'
    case Export => 'E'
  }

  /** The werkzeug exceptions the endpoints raise; `InternalError` stands for
      an uncaught Python exception (a missing key, a failed commit). */
  datatype HttpError =
    | BadRequest(description: string)
    | Forbidden(description: string)
    | NotFound
    | InternalError

  datatype Result<T> = Ok(value: T) | Err(error: HttpError)

  datatype Format = Json | GeoJson

  /** A response body: a dump of several stations, a dump of one station as a
      GeoJSON feature, or the empty body of a 204. `only` is the field list the
      schema was built with. */
  datatype Body =
    | StationList(format: Format, only: seq<string>, stations: seq<Station>)
    | StationFeature(only: seq<string>, station: Station)
    | NoContent

  /** The HTTP status of an endpoint's outcome. */
  function StatusCode(r: Result<Body>): (code: int)
    ensures r.Ok? ==> (code == 204 <==> r.value.NoContent?)
    ensures r.Err? && r.error.BadRequest? ==> code == 400
    ensures r.Err? && r.error.Forbidden? ==> code == 403
    ensures r.Err? && r.error.NotFound? ==> code == 404
  {
    match r
    case Ok(NoContent) => 204
    case Ok(_) => 200
    case Err(BadRequest(_)) => 400
    case Err(Forbidden(_)) => 403
    case Err(NotFound) => 404
    case Err(InternalError) => 500
  }

  /** `request.args.get(name, default=False, type=int)` is truthy: the
      parameter is present, converts to an integer (`None` here when it is
      absent or does not convert) and that integer is not zero. */
  predicate FlagSet(flag: Option<int>) {
    flag.Some? && flag.value != 0
  }

  // ---------------------------------------------------------------------------
  // list_stations: response shape and format

  const BaseFields: seq<string> := ["observers", "dataset"]
  const HabitatFields: seq<string> := ["habitats", "habitats.habref"]

  /** The field list of the listing, as specified: the base fields, then the
      habitat fields when asked for, then the station's nomenclature fields
      (`Station.__nomenclatures__`, given as `stationNomenclatures`) when
      asked for. */
  function ListShape(habitats: Option<int>, nomenclatures: Option<int>,
                     stationNomenclatures: seq<string>): seq<string>
  {
    BaseFields
    + (if FlagSet(habitats) then HabitatFields else [])
    + (if FlagSet(nomenclatures) then stationNomenclatures else [])
  }

  /** `Station.__nomenclatures__` names relations of its own: none of them is
      a base or habitat field, and none is listed twice. */
  predicate WellFormedNomenclatures(stationNomenclatures: seq<string>) {
    && (forall k :: 0 <= k < |stationNomenclatures| ==>
          stationNomenclatures[k] !in BaseFields + HabitatFields)
    && (forall j, k :: 0 <= j < k < |stationNomenclatures| ==>
          stationNomenclatures[j] != stationNomenclatures[k])
  }

  predicate NoDuplicates(s: seq<string>) {
    forall j, k :: 0 <= j < k < |s| ==> s[j] != s[k]
  }

  /** The shape always begins with the base fields, includes the habitat
      fields exactly when the habitats flag is set and each nomenclature field
      exactly when the nomenclatures flag is set, and lists nothing twice. */
  lemma ListShapeFields(habitats: Option<int>, nomenclatures: Option<int>, stationNomenclatures: seq<string>)
    requires WellFormedNomenclatures(stationNomenclatures)
    ensures var only := ListShape(habitats, nomenclatures, stationNomenclatures);
      && only[..2] == BaseFields
      && ("habitats" in only <==> FlagSet(habitats))
      && ("habitats.habref" in only <==> FlagSet(habitats))
      && (forall f :: f in stationNomenclatures ==> (f in only <==> FlagSet(nomenclatures)))
      && NoDuplicates(only)
      && |only| == 2 + (if FlagSet(habitats) then 2 else 0)
                     + (if FlagSet(nomenclatures) then |stationNomenclatures| else 0)
  {
  }

  /** `request.args.get("format", default="geojson")`, validated. */
  function ParseFormat(format: Option<string>): (r: Result<Format>)
    ensures format.None? ==> r == Ok(GeoJson)
    ensures r.Err? <==> format.Some? && format.value !in {"json", "geojson"}
    ensures r.Err? ==> r.error == BadRequest("Unsupported format")
    ensures r == Ok(Json) <==> format == Some("json")
  {
    match format.GetOr("geojson")
    case "json" => Ok(Json)
    case "geojson" => Ok(GeoJson)
    case _ => Err(BadRequest("Unsupported format"))
  }

  /** `list_stations`: `visible` stands for the stations the query filtered
      by scope selects. The field list is built step by step as the endpoint
      builds it, beside the set of relations loaded eagerly; every serialised
      relation is loaded eagerly, so the `raiseload("*")` default is never
      hit. An unsupported format is refused before anything is dumped. */
  method ListStations(visible: seq<Station>, habitats: Option<int>, nomenclatures: Option<int>,
                      format: Option<string>, stationNomenclatures: seq<string>)
    returns (r: Result<Body>, eagerLoaded: set<string>)
    ensures r.Err? <==> ParseFormat(format).Err?
    ensures r.Err? ==> r.error == BadRequest("Unsupported format")
    ensures r.Ok? ==> r.value == StationList(ParseFormat(format).value,
                                             ListShape(habitats, nomenclatures, stationNomenclatures), visible)
    ensures forall f :: f in ListShape(habitats, nomenclatures, stationNomenclatures) <==> f in eagerLoaded
  {
    var only := BaseFields;
    eagerLoaded := {"observers", "dataset"};
    if FlagSet(habitats) {
      only := only + HabitatFields;
      eagerLoaded := eagerLoaded + {"habitats", "habitats.habref"};
    }
    if FlagSet(nomenclatures) {
      only := only + stationNomenclatures;
      eagerLoaded := eagerLoaded + set f | f in stationNomenclatures;
    }
    var fmt := ParseFormat(format);
    if fmt.Err? {
      return Err(fmt.error), eagerLoaded;
    }
    r := Ok(StationList(fmt.value, only, visible));
  }

  // ---------------------------------------------------------------------------
  // get_station and delete_station: not found first, then instance permission

  /** `Station.query.get_or_404(id)` followed by the instance-permission
      check: `NotFound` for an absent id, then `Forbidden` when
      `permitted(station, scope)` fails, otherwise the stored station. */
  function FetchPermitted(stations: map<nat, Station>, id: nat, scope: int,
                          permitted: (Station, int) -> bool): (r: Result<Station>)
    ensures r == Err(NotFound) <==> id !in stations
    ensures r == Err(Forbidden("You do not have access to this station.")) <==>
      id in stations && !permitted(stations[id], scope)
    ensures r.Ok? <==> id in stations && permitted(stations[id], scope)
    ensures r.Ok? ==> r.value == stations[id]
  {
    if id !in stations then Err(NotFound)
    else if !permitted(stations[id], scope) then Err(Forbidden("You do not have access to this station."))
    else Ok(stations[id])
  }

  const GetShape: seq<string> := ["observers", "dataset", "habitats"]

  // ---------------------------------------------------------------------------
  // create_or_update_station: the guard chain

  const WriteShape: seq<string> := ["habitats", "observers.id_role"]

  /** The action the write is checked against: create without a path id,
      update with one. */
  function ActionFor(pathId: Option<nat>): (a: Action)
    ensures a == Create <==> pathId.None?
    ensures a == Update <==> pathId.Some?
  {
    if pathId.None? then Create else Update
  }

  /** Python truthiness of the path id: `0` is falsy. */
  predicate IdTruthy(pathId: Option<nat>) {
    pathId.Some? && pathId.value != 0
  }

  /** The guard chain of `create_or_update_station`, in the endpoint's order:
      scope threshold for the action, id match, instance permission on update,
      dataset existence, dataset permission under the create scope. On success
      the loaded station is what is to be persisted. */
  function CreateOrUpdateDecision(pathId: Option<nat>, scopes: map<Action, int>, payload: Station,
                                  datasets: map<int, Dataset>,
                                  stationPermitted: (Station, int) -> bool,
                                  datasetPermitted: (Dataset, int) -> bool): (r: Result<Station>)
    ensures r.Ok? ==> r.value == payload
    // each guard, once the ones before it pass, fails with its own error
    ensures ActionFor(pathId) !in scopes ==> r == Err(InternalError)
    ensures ActionFor(pathId) in scopes && scopes[ActionFor(pathId)] < 1 ==>
      r == Err(Forbidden("You do not have " + [Letter(ActionFor(pathId))] + " permission on stations."))
    ensures ActionFor(pathId) in scopes && scopes[ActionFor(pathId)] >= 1 && payload.idStation != pathId ==>
      r == Err(BadRequest("Unmatching id_station."))
    ensures (&& ActionFor(pathId) in scopes && scopes[ActionFor(pathId)] >= 1 && payload.idStation == pathId
             && IdTruthy(pathId) && !stationPermitted(payload, scopes[ActionFor(pathId)])) ==>
      r == Err(Forbidden("You do not have access to this station."))
    ensures (&& ActionFor(pathId) in scopes && scopes[ActionFor(pathId)] >= 1 && payload.idStation == pathId
             && (IdTruthy(pathId) ==> stationPermitted(payload, scopes[ActionFor(pathId)]))
             && (payload.idDataset.None? || payload.idDataset.value !in datasets)) ==>
      r == Err(BadRequest("Unexisting dataset"))
    ensures (&& ActionFor(pathId) in scopes && scopes[ActionFor(pathId)] >= 1 && payload.idStation == pathId
             && (IdTruthy(pathId) ==> stationPermitted(payload, scopes[ActionFor(pathId)]))
             && payload.idDataset.Some? && payload.idDataset.value in datasets && Create !in scopes) ==>
      r == Err(InternalError)
    ensures (&& ActionFor(pathId) in scopes && scopes[ActionFor(pathId)] >= 1 && payload.idStation == pathId
             && (IdTruthy(pathId) ==> stationPermitted(payload, scopes[ActionFor(pathId)]))
             && payload.idDataset.Some? && payload.idDataset.value in datasets && Create in scopes
             && !datasetPermitted(datasets[payload.idDataset.value], scopes[Create])) ==>
      r == Err(Forbidden("You do not have access to this dataset."))
  {
    var action := ActionFor(pathId);
    if action !in scopes then Err(InternalError)
    else if scopes[action] < 1 then
      Err(Forbidden("You do not have " + [Letter(action)] + " permission on stations."))
    else if payload.idStation != pathId then Err(BadRequest("Unmatching id_station."))
    else if IdTruthy(pathId) && !stationPermitted(payload, scopes[action]) then
      Err(Forbidden("You do not have access to this station."))
    else if payload.idDataset.None? || payload.idDataset.value !in datasets then
      Err(BadRequest("Unexisting dataset"))
    else if Create !in scopes then Err(InternalError)
    else if !datasetPermitted(datasets[payload.idDataset.value], scopes[Create]) then
      Err(Forbidden("You do not have access to this dataset."))
    else Ok(payload)
  }

  /** Every guard passed. */
  predicate GuardsPass(pathId: Option<nat>, scopes: map<Action, int>, payload: Station,
                       datasets: map<int, Dataset>,
                       stationPermitted: (Station, int) -> bool,
                       datasetPermitted: (Dataset, int) -> bool)
  {
    var action := ActionFor(pathId);
    && action in scopes && scopes[action] >= 1
    && payload.idStation == pathId
    && (IdTruthy(pathId) ==> stationPermitted(payload, scopes[action]))
    && payload.idDataset.Some? && payload.idDataset.value in datasets
    && Create in scopes
    && datasetPermitted(datasets[payload.idDataset.value], scopes[Create])
  }

  /** The write is accepted exactly when every guard passes; the dataset is
      always checked under the create scope, whatever the action. */
  lemma DecisionAcceptsExactlyWhenGuardsPass(pathId: Option<nat>, scopes: map<Action, int>, payload: Station,
                                             datasets: map<int, Dataset>,
                                             stationPermitted: (Station, int) -> bool,
                                             datasetPermitted: (Dataset, int) -> bool)
    ensures CreateOrUpdateDecision(pathId, scopes, payload, datasets, stationPermitted, datasetPermitted).Ok?
        <==> GuardsPass(pathId, scopes, payload, datasets, stationPermitted, datasetPermitted)
  {
  }

  /** Below the scope threshold the outcome is `Forbidden` and depends on
      nothing else: the payload is not even looked at. */
  lemma InsufficientScopeForbidsBeforePayload(pathId: Option<nat>, scopes: map<Action, int>,
                                              p1: Station, p2: Station,
                                              d1: map<int, Dataset>, d2: map<int, Dataset>,
                                              s1: (Station, int) -> bool, s2: (Station, int) -> bool,
                                              q1: (Dataset, int) -> bool, q2: (Dataset, int) -> bool)
    requires ActionFor(pathId) in scopes && scopes[ActionFor(pathId)] < 1
    ensures CreateOrUpdateDecision(pathId, scopes, p1, d1, s1, q1) == CreateOrUpdateDecision(pathId, scopes, p2, d2, s2, q2)
    ensures CreateOrUpdateDecision(pathId, scopes, p1, d1, s1, q1).Err?
    ensures CreateOrUpdateDecision(pathId, scopes, p1, d1, s1, q1).error.Forbidden?
  {
  }

  /** A create whose payload carries an id is refused as an id mismatch. */
  lemma CreateWithPayloadIdRejected(scopes: map<Action, int>, payload: Station, datasets: map<int, Dataset>,
                                    stationPermitted: (Station, int) -> bool,
                                    datasetPermitted: (Dataset, int) -> bool)
    requires Create in scopes && scopes[Create] >= 1
    requires payload.idStation.Some?
    ensures CreateOrUpdateDecision(None, scopes, payload, datasets, stationPermitted, datasetPermitted)
         == Err(BadRequest("Unmatching id_station."))
  {
  }

  /** The station's instance permission is asked only on update: a create's
      outcome does not depend on it. Because the check is `if id_station and
      ...`, an update of path id 0 skips it as well. */
  lemma StationPermissionOnlyOnTruthyId(pathId: Option<nat>, scopes: map<Action, int>, payload: Station,
                                        datasets: map<int, Dataset>,
                                        s1: (Station, int) -> bool, s2: (Station, int) -> bool,
                                        datasetPermitted: (Dataset, int) -> bool)
    requires pathId == None || pathId == Some(0)
    ensures CreateOrUpdateDecision(pathId, scopes, payload, datasets, s1, datasetPermitted)
         == CreateOrUpdateDecision(pathId, scopes, payload, datasets, s2, datasetPermitted)
  {
  }

  /** An update that is allowed on the dataset under the update scope but not
      under the create scope is refused. */
  lemma UpdateNeedsCreateScopeOnDataset(id: nat, scopes: map<Action, int>, payload: Station,
                                        datasets: map<int, Dataset>,
                                        stationPermitted: (Station, int) -> bool,
                                        datasetPermitted: (Dataset, int) -> bool)
    requires Create in scopes && payload.idDataset.Some? && payload.idDataset.value in datasets
    requires !datasetPermitted(datasets[payload.idDataset.value], scopes[Create])
    ensures CreateOrUpdateDecision(Some(id), scopes, payload, datasets, stationPermitted, datasetPermitted).Err?
  {
  }

  // ---------------------------------------------------------------------------
  // The stored stations and the session mutations

  /** Every stored station carries the id it is stored under. */
  ghost predicate KeyedById(stations: map<nat, Station>) {
    forall id :: id in stations ==> stations[id].idStation == Some(id)
  }

  /** The station table as the endpoints see it through the session. */
  class StationStore {
    var stations: map<nat, Station>

    ghost predicate Valid()
      reads this
    {
      KeyedById(stations)
    }

    constructor (initial: map<nat, Station>)
      requires KeyedById(initial)
      ensures Valid() && stations == initial
    {
      stations := initial;
    }

    /** `get_station`: not found, then forbidden, then the station dumped as a
        feature with its observers, dataset and habitats. */
    function GetStation(id: nat, scope: int, permitted: (Station, int) -> bool): (r: Result<Body>)
      reads this
      ensures r.Ok? <==> id in stations && permitted(stations[id], scope)
      ensures r.Ok? ==> r.value == StationFeature(GetShape, stations[id])
      ensures r.Err? ==> r.error == FetchPermitted(stations, id, scope, permitted).error
    {
      match FetchPermitted(stations, id, scope, permitted)
      case Ok(station) => Ok(StationFeature(GetShape, station))
      case Err(e) => Err(e)
    }

    /** `create_or_update_station`. `newId` is the id the database hands out
        to a new row. Nothing is stored unless every guard passes; an update
        replaces the stored station, nested habitats and observers included,
        by the payload (under its id, whether or not a station was stored
        there). A create whose new id is taken fails in the commit and
        changes nothing. */
    method CreateOrUpdateStation(pathId: Option<nat>, scopes: map<Action, int>, payload: Station,
                                 datasets: map<int, Dataset>,
                                 stationPermitted: (Station, int) -> bool,
                                 datasetPermitted: (Dataset, int) -> bool,
                                 newId: nat)
      returns (r: Result<Body>)
      requires Valid()
      modifies this
      ensures Valid()
      ensures var d := CreateOrUpdateDecision(pathId, scopes, payload, datasets, stationPermitted, datasetPermitted);
        && (d.Err? ==> r == Err(d.error) && stations == old(stations))
        && (d.Ok? && pathId.Some? ==>
              r == Ok(StationFeature(WriteShape, payload)) && stations == old(stations)[pathId.value := payload])
        && (d.Ok? && pathId.None? && newId in old(stations) ==>
              r == Err(InternalError) && stations == old(stations))
        && (d.Ok? && pathId.None? && newId !in old(stations) ==>
              var created := payload.(idStation := Some(newId));
              r == Ok(StationFeature(WriteShape, created)) && stations == old(stations)[newId := created])
    {
      var decision := CreateOrUpdateDecision(pathId, scopes, payload, datasets, stationPermitted, datasetPermitted);
      if decision.Err? {
        return Err(decision.error);
      }
      var station := decision.value;
      var id: nat;
      if pathId.Some? {
        id := pathId.value;
      } else {
        if newId in stations {
          return Err(InternalError);
        }
        id := newId;
        station := station.(idStation := Some(newId));
      }
      stations := stations[id := station];
      r := Ok(StationFeature(WriteShape, station));
    }

    /** `delete_station`: not found, then forbidden, then the station (with
        its habitats and observer links) is removed and 204 returned. */
    method DeleteStation(id: nat, scope: int, permitted: (Station, int) -> bool)
      returns (r: Result<Body>)
      requires Valid()
      modifies this
      ensures Valid()
      ensures var f := FetchPermitted(old(stations), id, scope, permitted);
        && (f.Err? ==> r == Err(f.error) && stations == old(stations))
        && (f.Ok? ==> r == Ok(NoContent) && StatusCode(r) == 204 && stations == old(stations) - {id})
    {
      var fetched := FetchPermitted(stations, id, scope, permitted);
      if fetched.Err? {
        return Err(fetched.error);
      }
      stations := stations - {id};
      r := Ok(NoContent);
    }
  }

  /** An update followed by a get: the station read back is exactly the
      payload, so nested collections are replaced rather than merged; a
      delete followed by a get finds nothing. */
  method UpdateThenGetThenDelete(store: StationStore, id: nat, scopes: map<Action, int>, payload: Station,
                                 datasets: map<int, Dataset>,
                                 stationPermitted: (Station, int) -> bool,
                                 datasetPermitted: (Dataset, int) -> bool,
                                 readScope: int, deleteScope: int)
    returns (read: Result<Body>, deleted: Result<Body>, again: Result<Body>)
    requires store.Valid()
    requires GuardsPass(Some(id), scopes, payload, datasets, stationPermitted, datasetPermitted)
    requires stationPermitted(payload, readScope) && stationPermitted(payload, deleteScope)
    modifies store
    ensures read == Ok(StationFeature(GetShape, payload))
    ensures read.value.station.habitats == payload.habitats && read.value.station.observers == payload.observers
    ensures deleted == Ok(NoContent)
    ensures again == Err(NotFound)
    ensures store.Valid() && store.stations == old(store.stations) - {id}
  {
    DecisionAcceptsExactlyWhenGuardsPass(Some(id), scopes, payload, datasets, stationPermitted, datasetPermitted);
    var written := store.CreateOrUpdateStation(Some(id), scopes, payload, datasets,
                                               stationPermitted, datasetPermitted, 0);
    read := store.GetStation(id, readScope, stationPermitted);
    deleted := store.DeleteStation(id, deleteScope, stationPermitted);
    again := store.GetStation(id, readScope, stationPermitted);
  }

  // ---------------------------------------------------------------------------
  // get_default_nomenclatures

  /** A nomenclature record as `as_dict()` returns it. */
  datatype Nomenclature = Nomenclature(idNomenclature: int, mnemonique: string, labelDefault: string)

  /** The organism passed to the SQL function: the integer 0 by default, the
      query parameter's text when one is given. */
  datatype OrganismArg = OrganismId(id: int) | OrganismText(text: string)

  function OrganismOf(organismParam: Option<string>): (o: OrganismArg)
    ensures organismParam.None? ==> o == OrganismId(0)
    ensures organismParam.Some? ==> o == OrganismText(organismParam.value)
  {
    match organismParam
    case None => OrganismId(0)
    case Some(text) => OrganismText(text)
  }

  /** One row of the query: a type and its default nomenclature id (`None`
      for SQL NULL). */
  datatype DefaultRow = DefaultRow(mnemoniqueType: string, defaultId: Option<int>)

  /** Python truthiness of the default id: NULL and 0 are falsy. */
  predicate IdSet(id: Option<int>) {
    id.Some? && id.value != 0
  }

  /** `distinct(...)`: each type once, the same types as the column. */
  function Distinct(s: seq<string>): (r: seq<string>)
    ensures forall x :: x in r <==> x in s
    ensures NoDuplicates(r)
  {
    if s == [] then []
    else if s[0] in s[1..] then Distinct(s[1..])
    else [s[0]] + Distinct(s[1..])
  }

  /** `filter(mnemonique_type.in_(types))`. */
  function KeepListed(s: seq<string>, types: seq<string>): (r: seq<string>)
    ensures forall x :: x in r <==> x in s && x in types
    ensures NoDuplicates(s) ==> NoDuplicates(r)
  {
    if s == [] then []
    else if s[0] in types then [s[0]] + KeepListed(s[1..], types)
    else KeepListed(s[1..], types)
  }

  /** The query of `get_default_nomenclatures`: the distinct types of the
      default-value table (`typeColumn`), filtered by `types` only when that
      list is non-empty, each with the value `defaultOf` (the SQL function
      `get_default_nomenclature_value`) gives for the organism. */
  function SelectDefaults(typeColumn: seq<string>, organism: OrganismArg, types: seq<string>,
                          defaultOf: (string, OrganismArg) -> Option<int>): (rows: seq<DefaultRow>)
    ensures forall t :: (exists k :: 0 <= k < |rows| && rows[k].mnemoniqueType == t) <==>
      t in typeColumn && (|types| > 0 ==> t in types)
    ensures forall k :: 0 <= k < |rows| ==> rows[k].defaultId == defaultOf(rows[k].mnemoniqueType, organism)
    ensures forall j, k :: 0 <= j < k < |rows| ==> rows[j].mnemoniqueType != rows[k].mnemoniqueType
  {
    var kept := if |types| > 0 then KeepListed(Distinct(typeColumn), types) else Distinct(typeColumn);
    var rows := seq(|kept|, k requires 0 <= k < |kept| => DefaultRow(kept[k], defaultOf(kept[k], organism)));
    assert forall t :: t in kept ==> exists k :: 0 <= k < |rows| && rows[k].mnemoniqueType == t by {
      forall t | t in kept ensures exists k :: 0 <= k < |rows| && rows[k].mnemoniqueType == t {
        var k :| 0 <= k < |kept| && kept[k] == t;
        assert rows[k].mnemoniqueType == t;
      }
    }
    rows
  }

  /** Row `k` is the last row of its type: the one whose entry the loop
      leaves in the dictionary. */
  predicate LastOfType(data: seq<DefaultRow>, k: int)
    requires 0 <= k < |data|
  {
    forall j :: k < j < |data| ==> data[j].mnemoniqueType != data[k].mnemoniqueType
  }

  /** Every truthy default id names a stored nomenclature. */
  predicate AllDefaultsResolve(data: seq<DefaultRow>, nomenclatures: map<int, Nomenclature>) {
    ResolvedUpTo(data, |data|, nomenclatures)
  }

  /** The truthy default ids of the first `i` rows name stored nomenclatures. */
  predicate ResolvedUpTo(data: seq<DefaultRow>, i: int, nomenclatures: map<int, Nomenclature>)
    requires 0 <= i <= |data|
  {
    forall k :: 0 <= k < i && IdSet(data[k].defaultId) ==> data[k].defaultId.value in nomenclatures
  }

  /** The dictionary entry for `row`: null exactly when its default id is
      falsy, the looked-up record otherwise. */
  predicate Describes(formatted: map<string, Option<Nomenclature>>, row: DefaultRow,
                      nomenclatures: map<int, Nomenclature>)
  {
    && row.mnemoniqueType in formatted
    && (formatted[row.mnemoniqueType].None? <==> !IdSet(row.defaultId))
    && (IdSet(row.defaultId) ==>
          row.defaultId.value in nomenclatures &&
          formatted[row.mnemoniqueType] == Some(nomenclatures[row.defaultId.value]))
  }

  /** Row `k` is the last row of its type among the first `i`. */
  predicate LastOfTypeBefore(data: seq<DefaultRow>, k: int, i: int)
    requires 0 <= k < i <= |data|
  {
    forall j :: k < j < i ==> data[j].mnemoniqueType != data[k].mnemoniqueType
  }

  /** The keys the loop has stored after the first `i` rows: the types seen. */
  ghost predicate KeysUpTo(formatted: map<string, Option<Nomenclature>>, data: seq<DefaultRow>, i: int)
    requires 0 <= i <= |data|
  {
    forall t :: t in formatted <==> exists k :: 0 <= k < i && data[k].mnemoniqueType == t
  }

  /** The entries after the first `i` rows: each describes the last row of
      its type seen so far. */
  predicate DescribesUpTo(formatted: map<string, Option<Nomenclature>>, data: seq<DefaultRow>, i: int,
                          nomenclatures: map<int, Nomenclature>)
    requires 0 <= i <= |data|
  {
    forall k :: 0 <= k < i && LastOfTypeBefore(data, k, i) ==> Describes(formatted, data[k], nomenclatures)
  }

  /** Storing row `i`'s type extends the keys to `i + 1` rows. */
  lemma KeysStep(formatted: map<string, Option<Nomenclature>>, data: seq<DefaultRow>, i: int,
                 entry: Option<Nomenclature>)
    requires 0 <= i < |data|
    requires KeysUpTo(formatted, data, i)
    ensures KeysUpTo(formatted[data[i].mnemoniqueType := entry], data, i + 1)
  {
  }

  /** Storing row `i`'s entry extends the descriptions to `i + 1` rows. */
  lemma DescribesStep(formatted: map<string, Option<Nomenclature>>, data: seq<DefaultRow>, i: int,
                      nomenclatures: map<int, Nomenclature>, entry: Option<Nomenclature>)
    requires 0 <= i < |data|
    requires DescribesUpTo(formatted, data, i, nomenclatures)
    requires Describes(formatted[data[i].mnemoniqueType := entry], data[i], nomenclatures)
    ensures DescribesUpTo(formatted[data[i].mnemoniqueType := entry], data, i + 1, nomenclatures)
  {
  }

  /** After all rows, the dictionary describes the last row of every type. */
  lemma FormattedAll(formatted: map<string, Option<Nomenclature>>, data: seq<DefaultRow>,
                     nomenclatures: map<int, Nomenclature>)
    requires KeysUpTo(formatted, data, |data|) && DescribesUpTo(formatted, data, |data|, nomenclatures)
    ensures forall t :: t in formatted <==> exists k :: 0 <= k < |data| && data[k].mnemoniqueType == t
    ensures forall k :: 0 <= k < |data| && LastOfType(data, k) ==> Describes(formatted, data[k], nomenclatures)
  {
  }

  /** The loop of `get_default_nomenclatures` over the query rows. A truthy
      id naming no stored nomenclature makes `query(...).get(..)` return
      `None`, whose `.as_dict()` raises: an internal error. */
  method FormatDefaults(data: seq<DefaultRow>, nomenclatures: map<int, Nomenclature>)
    returns (r: Result<map<string, Option<Nomenclature>>>)
    ensures r.Ok? <==> AllDefaultsResolve(data, nomenclatures)
    ensures r.Err? ==> r.error == InternalError
    ensures r.Ok? ==> forall t :: t in r.value <==> exists k :: 0 <= k < |data| && data[k].mnemoniqueType == t
    ensures r.Ok? ==> forall k :: 0 <= k < |data| && LastOfType(data, k) ==> Describes(r.value, data[k], nomenclatures)
  {
    var formatted: map<string, Option<Nomenclature>> := map[];
    var i := 0;
    while i < |data|
      invariant 0 <= i <= |data|
      invariant ResolvedUpTo(data, i, nomenclatures)
      invariant KeysUpTo(formatted, data, i)
      invariant DescribesUpTo(formatted, data, i, nomenclatures)
    {
      var d := data[i];
      var entry: Option<Nomenclature> := None;
      if IdSet(d.defaultId) {
        if d.defaultId.value !in nomenclatures {
          assert !AllDefaultsResolve(data, nomenclatures);
          return Err(InternalError);
        }
        entry := Some(nomenclatures[d.defaultId.value]);
      }
      KeysStep(formatted, data, i, entry);
      DescribesStep(formatted, data, i, nomenclatures, entry);
      formatted := formatted[d.mnemoniqueType := entry];
      i := i + 1;
    }
    FormattedAll(formatted, data, nomenclatures);
    r := Ok(formatted);
  }

  /** A truthy default id that names no stored nomenclature. */
  predicate DefaultUnresolved(id: Option<int>, nomenclatures: map<int, Nomenclature>) {
    IdSet(id) && id.value !in nomenclatures
  }

  /** `get_default_nomenclatures`: the organism parameter (default 0), the
      repeated `mnemonique` parameter, the default-value table's type column,
      the SQL function and the nomenclature table. The keys are the table's
      types, restricted to the listed ones only when some are listed; each
      maps to null exactly when its default id is falsy. */
  method GetDefaultNomenclatures(organismParam: Option<string>, mnemonique: seq<string>,
                                 typeColumn: seq<string>,
                                 defaultOf: (string, OrganismArg) -> Option<int>,
                                 nomenclatures: map<int, Nomenclature>)
    returns (r: Result<map<string, Option<Nomenclature>>>)
    ensures r.Err? ==> r.error == InternalError
    ensures r.Ok? ==> forall t :: t in r.value <==> t in typeColumn && (|mnemonique| > 0 ==> t in mnemonique)
    ensures r.Ok? ==> forall t :: t in r.value ==>
      var id := defaultOf(t, OrganismOf(organismParam));
      && (r.value[t].None? <==> !IdSet(id))
      && (IdSet(id) ==> id.value in nomenclatures && r.value[t] == Some(nomenclatures[id.value]))
    ensures r.Err? <==> exists t :: t in typeColumn && (|mnemonique| > 0 ==> t in mnemonique) &&
                                  DefaultUnresolved(defaultOf(t, OrganismOf(organismParam)), nomenclatures)
  {
    var organism := OrganismOf(organismParam);
    var data := SelectDefaults(typeColumn, organism, mnemonique, defaultOf);
    r := FormatDefaults(data, nomenclatures);
    if r.Ok? {
      forall t | t in r.value
        ensures var id := defaultOf(t, organism);
          && (r.value[t].None? <==> !IdSet(id))
          && (IdSet(id) ==> id.value in nomenclatures && r.value[t] == Some(nomenclatures[id.value]))
      {
        var k :| 0 <= k < |data| && data[k].mnemoniqueType == t;
        assert LastOfType(data, k);
        assert Describes(r.value, data[k], nomenclatures);
      }
    } else {
      var k :| 0 <= k < |data| && IdSet(data[k].defaultId) && data[k].defaultId.value !in nomenclatures;
      assert data[k].mnemoniqueType in typeColumn;
    }
  }
}
