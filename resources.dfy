/**
 * The decision and ordering logic of the model service's request handlers
 * (`model/resources.py`): `model_get_modified`, `model_modify` and
 * `model_simulate`. The HTTP layer is reduced to a request record and a
 * response datatype carrying the status code. The model store, the delta
 * store, the three condition adapters, `model_from_dict` and `simulate` are
 * collaborators whose own code is not part of this model: the stores are
 * small classes, the others are functions passed in.
 */
module Resources {
  import opened Wrappers
  import opened Metabolic
  import opened Operations

  /** The JSON of a value handed unchanged to a collaborator (an adapter, `model_from_dict`). */
  type Payload = string

  /** `conditions`: each of the three keys may be absent. */
  datatype Conditions = Conditions(medium: Option<Payload>, genotype: Option<Payload>, measurements: Option<Payload>)

  /** The fields of the JSON body that the handlers read; `None` is an absent key. */
  datatype Body = Body(
    operations: Option<seq<Operation>>,
    conditions: Option<Conditions>,
    modelId: Option<string>,
    model: Option<Payload>,
    biomassReaction: Option<string>,
    deltaId: Option<string>,
    simulationMethod: Option<string>,
    objective: Option<string>,
    objectiveDirection: Option<string>)

  /** `request.is_json` and `request.json` */
  datatype Request = Request(isJson: bool, body: Body)

  /** The exceptions `storage.get` raises. */
  datatype StoreError = Unauthorized | Forbidden | ModelNotFound

  /** `ModelWrapper`: the shared model instance and its default biomass reaction. */
  datatype Wrapper = Wrapper(model: Model, biomassReaction: string)

  datatype StoreEntry = Stored(wrapper: Wrapper) | Refused(error: StoreError)

  /** The model store behind `storage.get`; its models are shared by all requests. */
  class ModelStore {
    var entries: map<string, StoreEntry>

    constructor (entries: map<string, StoreEntry>)
      ensures this.entries == entries
    {
      this.entries := entries;
    }

    /** `storage.get(model_id)`: an unknown id raises `ModelNotFound`. */
    function Get(modelId: string): Result<Wrapper, StoreError>
      reads this
    {
      if modelId !in entries then Err(ModelNotFound)
      else
        match entries[modelId]
        case Stored(w) => Ok(w)
        case Refused(e) => Err(e)
    }

    /** The shared model instances. */
    ghost function Models(): set<Model>
      reads this
    {
      set id | id in entries && entries[id].Stored? :: entries[id].wrapper.model
    }
  }

  /** What `deltas.save` stores under a key. */
  datatype Delta = Delta(modelId: string, conditions: Conditions, operations: seq<Operation>)

  /** The delta store: operation lists saved under a key derived from the model id and the conditions. */
  class DeltaStore {
    var records: map<string, Delta>
    const keyOf: (string, Conditions) -> string

    constructor (keyOf: (string, Conditions) -> string)
      ensures records == map[] && this.keyOf == keyOf
    {
      records := map[];
      this.keyOf := keyOf;
    }

    /** `deltas.save(model_id, conditions, operations)` */
    method Save(modelId: string, conditions: Conditions, operations: seq<Operation>) returns (key: string)
      modifies this
      ensures key == keyOf(modelId, conditions)
      ensures records == old(records)[key := Delta(modelId, conditions, operations)]
    {
      key := keyOf(modelId, conditions);
      records := records[key := Delta(modelId, conditions, operations)];
    }

    /** `deltas.load_from_key(key)`: `None` where it raises `KeyError`. */
    function Load(key: string): Option<seq<Operation>>
      reads this
    {
      if key in records then Some(records[key].operations) else None
    }
  }

  /** What an adapter returns: the operations it derived and its per-item errors. */
  datatype Adapted = Adapted(operations: seq<Operation>, errors: seq<string>)

  /** `adapt_from_medium`, `adapt_from_genotype` and `adapt_from_measurements` */
  datatype Adapters = Adapters(
    medium: (ModelState, Payload) -> Adapted,
    genotype: (ModelState, Payload) -> Adapted,
    measurements: (ModelState, string, Payload) -> Adapted)

  /** The flux distribution and growth rate `simulate` returns. */
  datatype Simulation = Simulation(fluxDistribution: map<string, real>, growthRate: real)

  /** `simulate(model, biomass_reaction, method, objective_id, objective_direction)` */
  type Simulator = (ModelState, string, string, Option<string>, Option<string>) -> Simulation

  /** Why a request failed. */
  datatype Reason =
    | NonJson
    | StoreFailure(storeError: StoreError)
    | MissingConditions
    | MissingOperations
    | NotDeserializable
    | MissingBiomassReaction
    | UnknownBiomassReaction(id: string)
    | MissingModel
    | UnknownDelta(id: string)
    | Uncaught(applyError: ApplyError)

  /** The handlers' responses; all but `Failure` are sent with status 200. */
  datatype Response =
    | Failure(status: int, reason: Reason)
    | ModelDict(model: ModelState)
    | ConditionErrors(errors: seq<string>)
    | DeltaCreated(id: string, operations: seq<Operation>)
    | Simulated(result: Simulation)

  /** The status each store exception is answered with. */
  function StoreStatus(e: StoreError): int {
    match e
    case Unauthorized => 401
    case Forbidden => 403
    case ModelNotFound => 404
  }

  /** `model_get_modified(model_id)` */
  method ModelGetModified(store: ModelStore, modelId: string, request: Request) returns (response: Response)
    ensures !request.isJson ==> response == Failure(415, NonJson)
    ensures request.isJson && store.Get(modelId).Err? ==>
            response == Failure(StoreStatus(store.Get(modelId).error), StoreFailure(store.Get(modelId).error))
    ensures request.isJson && store.Get(modelId).Ok? && request.body.operations.None? ==>
            response == Failure(400, MissingOperations)
    ensures request.isJson && store.Get(modelId).Ok? && request.body.operations.Some? ==>
            var outcome := ApplyAll(store.Get(modelId).value.model.State(), request.body.operations.value);
            && (outcome.Done? ==> response == ModelDict(outcome.state))
            && (outcome.Failed? && outcome.error.KeyError? ==> response == Failure(400, MissingOperations))
            && (outcome.Failed? && !outcome.error.KeyError? ==> response == Failure(500, Uncaught(outcome.error)))
  {
    if !request.isJson {
      return Failure(415, NonJson);
    }
    var stored := store.Get(modelId);
    if stored.Err? {
      return Failure(StoreStatus(stored.error), StoreFailure(stored.error));
    }
    var model := new Model.Copy(stored.value.model);
    if request.body.operations.None? {
      return Failure(400, MissingOperations);
    }
    var err := model.ApplyOperations(request.body.operations.value);
    if err.Some? {
      if err.value.KeyError? {
        return Failure(400, MissingOperations);
      }
      return Failure(500, Uncaught(err.value));
    }
    response := ModelDict(model.State());
  }

  /** The medium adapter's result, or nothing when `conditions` has no `medium`. */
  function FromMedium(model: ModelState, conditions: Conditions, adapters: Adapters): Adapted {
    if conditions.medium.Some? then adapters.medium(model, conditions.medium.value) else Adapted([], [])
  }

  /** The genotype adapter's result, or nothing when `conditions` has no `genotype`. */
  function FromGenotype(model: ModelState, conditions: Conditions, adapters: Adapters): Adapted {
    if conditions.genotype.Some? then adapters.genotype(model, conditions.genotype.value) else Adapted([], [])
  }

  /** The measurements adapter's result, or nothing when `conditions` has no `measurements`. */
  function FromMeasurements(model: ModelState, biomassReaction: string, conditions: Conditions, adapters: Adapters): Adapted {
    if conditions.measurements.Some? then adapters.measurements(model, biomassReaction, conditions.measurements.value)
    else Adapted([], [])
  }

  /**
   * The `extend` calls of `model_modify`: medium, then genotype, then
   * measurements, for operations and errors alike.
   */
  method AssembleOperations(model: ModelState, biomassReaction: string, conditions: Conditions, adapters: Adapters)
    returns (operations: seq<Operation>, errors: seq<string>)
    ensures operations == FromMedium(model, conditions, adapters).operations +
                          FromGenotype(model, conditions, adapters).operations +
                          FromMeasurements(model, biomassReaction, conditions, adapters).operations
    ensures errors == FromMedium(model, conditions, adapters).errors +
                      FromGenotype(model, conditions, adapters).errors +
                      FromMeasurements(model, biomassReaction, conditions, adapters).errors
    ensures |errors| == 0 <==> && FromMedium(model, conditions, adapters).errors == []
                               && FromGenotype(model, conditions, adapters).errors == []
                               && FromMeasurements(model, biomassReaction, conditions, adapters).errors == []
  {
    operations, errors := [], [];
    if conditions.medium.Some? {
      var adapted := adapters.medium(model, conditions.medium.value);
      operations := operations + adapted.operations;
      errors := errors + adapted.errors;
    }
    if conditions.genotype.Some? {
      var adapted := adapters.genotype(model, conditions.genotype.value);
      operations := operations + adapted.operations;
      errors := errors + adapted.errors;
    }
    if conditions.measurements.Some? {
      var adapted := adapters.measurements(model, biomassReaction, conditions.measurements.value);
      operations := operations + adapted.operations;
      errors := errors + adapted.errors;
    }
  }

  /** `model_modify(model_id)` */
  method ModelModify(store: ModelStore, deltas: DeltaStore, adapters: Adapters, modelId: string, request: Request)
    returns (response: Response)
    modifies deltas
    ensures !request.isJson ==> response == Failure(415, NonJson)
    ensures request.isJson && store.Get(modelId).Err? ==>
            response == Failure(StoreStatus(store.Get(modelId).error), StoreFailure(store.Get(modelId).error))
    ensures request.isJson && store.Get(modelId).Ok? && request.body.conditions.None? ==>
            response == Failure(400, MissingConditions)
    ensures request.isJson && store.Get(modelId).Ok? && request.body.conditions.Some? ==>
            var wrapper := store.Get(modelId).value;
            var model := wrapper.model.State();
            var conditions := request.body.conditions.value;
            var medium := FromMedium(model, conditions, adapters);
            var genotype := FromGenotype(model, conditions, adapters);
            var measurements := FromMeasurements(model, wrapper.biomassReaction, conditions, adapters);
            var errors := medium.errors + genotype.errors + measurements.errors;
            var operations := medium.operations + genotype.operations + measurements.operations;
            && (errors != [] ==> response == ConditionErrors(errors))
            && (errors == [] ==>
                  var key := deltas.keyOf(model.id, conditions);
                  response == DeltaCreated(key, operations) &&
                  deltas.records == old(deltas.records)[key := Delta(model.id, conditions, operations)])
    ensures !response.DeltaCreated? ==> deltas.records == old(deltas.records)
    ensures unchanged(store) && unchanged(store.Models())
  {
    if !request.isJson {
      return Failure(415, NonJson);
    }
    var stored := store.Get(modelId);
    if stored.Err? {
      return Failure(StoreStatus(stored.error), StoreFailure(stored.error));
    }
    var model := new Model.Copy(stored.value.model);
    if request.body.conditions.None? {
      return Failure(400, MissingConditions);
    }
    var conditions := request.body.conditions.value;
    var operations, errors := AssembleOperations(model.State(), stored.value.biomassReaction, conditions, adapters);
    if errors != [] {
      return ConditionErrors(errors);
    }
    var key := deltas.Save(model.id, conditions, operations);
    response := DeltaCreated(key, operations);
  }

  /** The model a simulate request names, with its biomass reaction, or the failure response. */
  function SimulationSubject(store: ModelStore, deserialize: Payload -> Option<ModelState>, body: Body)
    : Result<(ModelState, string), Response>
    reads store, store.Models()
  {
    if body.modelId.Some? then
      match store.Get(body.modelId.value)
      case Err(e) => Err(Failure(StoreStatus(e), StoreFailure(e)))
      case Ok(w) =>
        assert w.model in store.Models();
        Ok((w.model.State(), w.biomassReaction))
    else if body.model.Some? then
      match deserialize(body.model.value)
      case None => Err(Failure(400, NotDeserializable))
      case Some(st) =>
        match body.biomassReaction
        case None => Err(Failure(400, MissingBiomassReaction))
        case Some(b) => if HasReaction(st, b) then Ok((st, b)) else Err(Failure(400, UnknownBiomassReaction(b)))
    else Err(Failure(400, MissingModel))
  }

  /** The stored delta's operations followed by the request's own; `None` for an unknown `delta_id`. */
  function ReplayedOperations(deltas: DeltaStore, body: Body): Option<seq<Operation>>
    reads deltas
  {
    if body.deltaId.Some? && deltas.Load(body.deltaId.value).None? then None
    else
      var stored := if body.deltaId.Some? then deltas.Load(body.deltaId.value).value else [];
      Some(stored + body.operations.GetOr([]))
  }

  /** What `model_simulate` answers once its model is known. */
  function SimulationResponse(model: ModelState, biomassReaction: string, deltas: DeltaStore,
                              simulate: Simulator, body: Body): Response
    reads deltas
  {
    match ReplayedOperations(deltas, body)
    case None => Failure(404, UnknownDelta(body.deltaId.value))
    case Some(ops) =>
      match ApplyAll(model, ops)
      case Failed(_, e) => Failure(500, Uncaught(e))
      case Done(s) => Simulated(simulate(s, biomassReaction, body.simulationMethod.GetOr("fba"), body.objective, body.objectiveDirection))
  }

  /** `model_simulate()` */
  method ModelSimulate(store: ModelStore, deltas: DeltaStore, deserialize: Payload -> Option<ModelState>,
                       simulate: Simulator, request: Request) returns (response: Response)
    ensures !request.isJson ==> response == Failure(415, NonJson)
    ensures request.isJson && SimulationSubject(store, deserialize, request.body).Err? ==>
            response == SimulationSubject(store, deserialize, request.body).error
    ensures request.isJson && SimulationSubject(store, deserialize, request.body).Ok? ==>
            var (model, biomassReaction) := SimulationSubject(store, deserialize, request.body).value;
            response == SimulationResponse(model, biomassReaction, deltas, simulate, request.body)
  {
    if !request.isJson {
      return Failure(415, NonJson);
    }
    var body := request.body;
    var model: Model;
    var biomassReaction: string;
    if body.modelId.Some? {
      var stored := store.Get(body.modelId.value);
      if stored.Err? {
        return Failure(StoreStatus(stored.error), StoreFailure(stored.error));
      }
      biomassReaction := stored.value.biomassReaction;
      model := new Model.Copy(stored.value.model);
    } else if body.model.Some? {
      var parsed := deserialize(body.model.value);
      if parsed.None? {
        return Failure(400, NotDeserializable);
      }
      model := new Model.FromState(parsed.value);
      if body.biomassReaction.None? {
        return Failure(400, MissingBiomassReaction);
      }
      biomassReaction := body.biomassReaction.value;
      if IndexOfReaction(model.reactions, biomassReaction).None? {
        return Failure(400, UnknownBiomassReaction(biomassReaction));
      }
    } else {
      return Failure(400, MissingModel);
    }

    var operations := [];
    if body.deltaId.Some? {
      var stored := deltas.Load(body.deltaId.value);
      if stored.None? {
        return Failure(404, UnknownDelta(body.deltaId.value));
      }
      assert [] + stored.value == stored.value;
      operations := operations + stored.value;
    }
    if body.operations.Some? {
      operations := operations + body.operations.value;
    } else {
      assert operations + [] == operations;
    }
    assert ReplayedOperations(deltas, body) == Some(operations);
    assert SimulationSubject(store, deserialize, body) == Ok((model.State(), biomassReaction));
    var err := model.ApplyOperations(operations);
    if err.Some? {
      return Failure(500, Uncaught(err.value));
    }
    var simulationMethod := body.simulationMethod.GetOr("fba");
    response := Simulated(simulate(model.State(), biomassReaction, simulationMethod, body.objective, body.objectiveDirection));
  }

  /**
   * A stored delta is replayed before the request's own operations: the
   * request's operations run on the state the delta left, and not at all
   * when the delta failed.
   */
  lemma StoredDeltaRunsFirst(model: ModelState, deltas: DeltaStore, body: Body)
    requires body.deltaId.Some? && deltas.Load(body.deltaId.value).Some?
    ensures ReplayedOperations(deltas, body).Some?
    ensures ApplyAll(model, ReplayedOperations(deltas, body).value) ==
            Continue(ApplyAll(model, deltas.Load(body.deltaId.value).value), body.operations.GetOr([]))
  {
    ApplyAllAppend(model, deltas.Load(body.deltaId.value).value, body.operations.GetOr([]));
  }

  /** An unknown `delta_id` is answered with 404 before any operation is applied, whatever the model. */
  lemma UnknownDeltaIsNotFound(model: ModelState, biomassReaction: string, deltas: DeltaStore,
                               simulate: Simulator, body: Body)
    requires body.deltaId.Some? && deltas.Load(body.deltaId.value).None?
    ensures SimulationResponse(model, biomassReaction, deltas, simulate, body) == Failure(404, UnknownDelta(body.deltaId.value))
  {
  }

  /** With `model_id` given, `model` and `biomass_reaction` in the body are never looked at. */
  lemma ModelIdTakesPrecedence(store: ModelStore, deserialize: Payload -> Option<ModelState>, body: Body,
                               model: Option<Payload>, biomassReaction: Option<string>)
    requires body.modelId.Some?
    ensures SimulationSubject(store, deserialize, body) ==
            SimulationSubject(store, deserialize, body.(model := model, biomassReaction := biomassReaction))
  {
  }

  /** A posted model whose biomass reaction it lacks is refused with 400. */
  lemma PostedModelNeedsItsBiomassReaction(store: ModelStore, deserialize: Payload -> Option<ModelState>, body: Body)
    requires body.modelId.None? && body.model.Some? && deserialize(body.model.value).Some?
    ensures var subject := SimulationSubject(store, deserialize, body);
            && (subject.Ok? <==> body.biomassReaction.Some? && HasReaction(deserialize(body.model.value).value, body.biomassReaction.value))
            && (subject.Ok? ==> subject.value == (deserialize(body.model.value).value, body.biomassReaction.value))
            && (subject.Err? ==> subject.error.Failure? && subject.error.status == 400)
  {
  }

  /** Without a `method`, the simulation runs flux balance analysis. */
  lemma SimulationMethodDefaultsToFba(model: ModelState, biomassReaction: string, deltas: DeltaStore,
                                      simulate: Simulator, body: Body)
    requires body.simulationMethod.None?
    requires ReplayedOperations(deltas, body).Some? && ApplyAll(model, ReplayedOperations(deltas, body).value).Done?
    ensures SimulationResponse(model, biomassReaction, deltas, simulate, body) ==
            Simulated(simulate(ApplyAll(model, ReplayedOperations(deltas, body).value).state, biomassReaction,
                               "fba", body.objective, body.objectiveDirection))
  {
  }
}
