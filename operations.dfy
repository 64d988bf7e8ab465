/**
 * `apply_operations` of the model service (`model/operations.py`): an ordered
 * list of `{operation, type, id, data}` records is applied to a model in
 * place, one at a time. Four (operation, type) pairs are supported; any other
 * raises `ValueError`. The first failure stops the loop and nothing applied
 * before it is rolled back.
 *
 * The effect of one record on the model's contents is given by `Step`, and of
 * a list by `ApplyAll`; the class `Model` performs them in place and is proved
 * to agree with them.
 */
module Operations {
  import opened Wrappers
  import opened Metabolic

  /** The reaction dict accepted by cobrapy's `reaction_from_dict`. */
  datatype ReactionSpec = ReactionSpec(
    id: string,
    name: string,
    metabolites: seq<(string, real)>,
    lowerBound: real,
    upperBound: real,
    geneReactionRule: GeneRule,
    annotation: Annotation)

  /** The `data` field of a record: absent, a pair of bounds, or a whole reaction dict. */
  datatype OperationData = NoData | Bounds(lowerBound: real, upperBound: real) | ReactionDict(reaction: ReactionSpec)

  /** One operation record; `kind` is its `type` field. */
  datatype Operation = Operation(operation: string, kind: string, id: string, data: OperationData)

  /** The Python exceptions an operation can raise. */
  datatype ApplyError = KeyError(key: string) | IndexError(query: string) | ValueError(operation: string, kind: string)

  /** The model after a list of operations, and the exception that stopped it, if any. */
  datatype Applied = Done(state: ModelState) | Failed(state: ModelState, error: ApplyError)

  /** `model.reactions.get_by_id(id)`: the position of the reaction with this id. */
  function IndexOfReaction(reactions: seq<Reaction>, id: string): (r: Option<nat>)
    ensures r.Some? ==> r.value < |reactions| && reactions[r.value].id == id &&
                        forall j :: 0 <= j < r.value ==> reactions[j].id != id
    ensures r.None? <==> forall i :: 0 <= i < |reactions| ==> reactions[i].id != id
  {
    if |reactions| == 0 then None
    else if reactions[0].id == id then Some(0)
    else
      match IndexOfReaction(reactions[1..], id)
      case None => None
      case Some(k) => Some(k + 1)
  }

  /** `model.genes.query(lambda g: id in (g.id, g.name))[0]`: the first gene whose id or name is `id`. */
  function FirstGeneIndex(genes: seq<Gene>, id: string): (r: Option<nat>)
    ensures r.Some? ==> r.value < |genes| && (genes[r.value].id == id || genes[r.value].name == id) &&
                        forall j :: 0 <= j < r.value ==> genes[j].id != id && genes[j].name != id
    ensures r.None? <==> forall i :: 0 <= i < |genes| ==> genes[i].id != id && genes[i].name != id
  {
    if |genes| == 0 then None
    else if genes[0].id == id || genes[0].name == id then Some(0)
    else
      match FirstGeneIndex(genes[1..], id)
      case None => None
      case Some(k) => Some(k + 1)
  }

  predicate HasMetabolite(metabolites: seq<Metabolite>, id: string) {
    exists j :: 0 <= j < |metabolites| && metabolites[j].id == id
  }

  /** The first metabolite of a reaction dict that `model.metabolites.get_by_id` does not know. */
  function UnknownMetabolite(stoichiometry: seq<(string, real)>, metabolites: seq<Metabolite>): (r: Option<string>)
    ensures r.None? <==> forall i :: 0 <= i < |stoichiometry| ==> HasMetabolite(metabolites, stoichiometry[i].0)
    ensures r.Some? ==> !HasMetabolite(metabolites, r.value) &&
                        exists i :: 0 <= i < |stoichiometry| && stoichiometry[i].0 == r.value
  {
    if |stoichiometry| == 0 then None
    else if !HasMetabolite(metabolites, stoichiometry[0].0) then Some(stoichiometry[0].0)
    else
      var rest := UnknownMetabolite(stoichiometry[1..], metabolites);
      assert forall i :: 0 < i < |stoichiometry| ==> stoichiometry[i] == stoichiometry[1..][i - 1];
      rest
  }

  /** `reaction_from_dict`: every field of the new reaction comes from the dict. */
  function BuildReaction(spec: ReactionSpec): Reaction {
    Reaction(spec.id, spec.name, spec.annotation, spec.metabolites, spec.lowerBound, spec.upperBound, spec.geneReactionRule)
  }

  predicate HasGene(genes: seq<Gene>, id: string) {
    exists j :: 0 <= j < |genes| && genes[j].id == id
  }

  /**
   * `add_reactions` registering the genes of a new reaction's rule: each id
   * the model does not have yet becomes a functional gene with an empty name.
   */
  function AddGenes(genes: seq<Gene>, ids: seq<string>): (r: seq<Gene>)
    ensures |genes| <= |r| && r[..|genes|] == genes
    ensures forall i :: 0 <= i < |ids| ==> HasGene(r, ids[i])
    ensures forall j :: |genes| <= j < |r| ==> r[j] == Gene(r[j].id, "", true) && r[j].id in ids
    decreases |ids|
  {
    if |ids| == 0 then genes
    else if HasGene(genes, ids[0]) then
      var r := AddGenes(genes, ids[1..]);
      assert forall i :: 0 < i < |ids| ==> ids[i] == ids[1..][i - 1];
      assert forall j :: 0 <= j < |genes| ==> r[j] == genes[j];
      r
    else
      var extended := genes + [Gene(ids[0], "", true)];
      var r := AddGenes(extended, ids[1..]);
      assert forall i :: 0 < i < |ids| ==> ids[i] == ids[1..][i - 1];
      assert r[..|extended|] == extended;
      assert r[|genes|] == extended[|genes|];
      assert r[..|genes|] == extended[..|genes|];
      r
  }

  /** `_add_reaction`: build the reaction from `data` and add it unless its id is taken. */
  function AddReactionTo(st: ModelState, data: OperationData): Result<ModelState, ApplyError> {
    match data
    case NoData => Err(KeyError("data"))
    case Bounds(_, _) => Err(KeyError("id"))
    case ReactionDict(spec) =>
      match UnknownMetabolite(spec.metabolites, st.metabolites)
      case Some(m) => Err(KeyError(m))
      case None =>
        var reaction := BuildReaction(spec);
        if HasReaction(st, reaction.id) then Ok(st)
        else Ok(st.(reactions := st.reactions + [reaction],
                    genes := AddGenes(st.genes, GenesOf(reaction.rule))))
  }

  /** `_modify_reaction`: replace the bounds of reaction `id` with those of `data`. */
  function ModifyReactionIn(st: ModelState, id: string, data: OperationData): Result<ModelState, ApplyError> {
    if data.NoData? then Err(KeyError("data"))
    else
      var (lower, upper) := if data.Bounds? then (data.lowerBound, data.upperBound)
                            else (data.reaction.lowerBound, data.reaction.upperBound);
      match IndexOfReaction(st.reactions, id)
      case None => Err(KeyError(id))
      case Some(k) => Ok(st.(reactions := st.reactions[k := st.reactions[k].(lower := lower, upper := upper)]))
  }

  /** `_knockout_reaction`: `Reaction.knock_out` sets the bounds of reaction `id` to (0, 0). */
  function KnockoutReactionIn(st: ModelState, id: string): Result<ModelState, ApplyError> {
    match IndexOfReaction(st.reactions, id)
    case None => Err(KeyError(id))
    case Some(k) => Ok(st.(reactions := st.reactions[k := st.reactions[k].(lower := 0.0, upper := 0.0)]))
  }

  /** The reactions of `gene` whose rule no longer holds get the bounds (0, 0). */
  function CloseDisabled(reactions: seq<Reaction>, gene: string, knockedOut: set<string>): seq<Reaction> {
    seq(|reactions|, i requires 0 <= i < |reactions| =>
      if gene in GenesOf(reactions[i].rule) && !Holds(reactions[i].rule, knockedOut)
      then reactions[i].(lower := 0.0, upper := 0.0)
      else reactions[i])
  }

  /**
   * `_knockout_gene`: the first gene whose id or name is `id` becomes
   * non-functional (`Gene.knock_out`), which closes its reactions whose rule
   * fails; with no such gene the `[0]` raises `IndexError`.
   */
  function KnockoutGeneIn(st: ModelState, id: string): Result<ModelState, ApplyError> {
    match FirstGeneIndex(st.genes, id)
    case None => Err(IndexError(id))
    case Some(k) =>
      var genes := st.genes[k := st.genes[k].(functional := false)];
      Ok(st.(genes := genes, reactions := CloseDisabled(st.reactions, st.genes[k].id, KnockedOut(genes))))
  }

  /** One pass of the loop of `apply_operations`. */
  function Step(st: ModelState, op: Operation): Result<ModelState, ApplyError> {
    if op.operation == "add" && op.kind == "reaction" then AddReactionTo(st, op.data)
    else if op.operation == "modify" && op.kind == "reaction" then ModifyReactionIn(st, op.id, op.data)
    else if op.operation == "knockout" && op.kind == "reaction" then KnockoutReactionIn(st, op.id)
    else if op.operation == "knockout" && op.kind == "gene" then KnockoutGeneIn(st, op.id)
    else Err(ValueError(op.operation, op.kind))
  }

  /** `apply_operations(model, ops)` on the model's contents: step by step, stopping at the first exception. */
  function ApplyAll(st: ModelState, ops: seq<Operation>): Applied
    decreases |ops|
  {
    if |ops| == 0 then Done(st)
    else
      match ApplyAll(st, ops[..|ops| - 1])
      case Failed(s, e) => Failed(s, e)
      case Done(s) =>
        match Step(s, ops[|ops| - 1])
        case Ok(s') => Done(s')
        case Err(e) => Failed(s, e)
  }

  /** Going on with more operations after an outcome; a failure stays as it is. */
  function Continue(outcome: Applied, ops: seq<Operation>): Applied {
    if outcome.Failed? then outcome else ApplyAll(outcome.state, ops)
  }

  /** Whether a method's new state and returned error are those a `Step` result describes. */
  predicate Reflects(r: Result<ModelState, ApplyError>, before: ModelState, after: ModelState, err: Option<ApplyError>) {
    match r
    case Ok(s) => after == s && err == None
    case Err(e) => after == before && err == Some(e)
  }

  /** The contents of a `cobra.Model`, changed in place by the operations. */
  class Model {
    var id: string
    var reactions: seq<Reaction>
    var metabolites: seq<Metabolite>
    var genes: seq<Gene>

    function State(): ModelState
      reads this
    {
      ModelState(id, reactions, metabolites, genes)
    }

    /** A model built from given contents (as `model_from_dict` does). */
    constructor FromState(st: ModelState)
      ensures State() == st
    {
      id, reactions, metabolites, genes := st.id, st.reactions, st.metabolites, st.genes;
    }

    /** `model.copy()`: a new object with the same contents. */
    constructor Copy(source: Model)
      ensures State() == source.State()
    {
      id, reactions, metabolites, genes := source.id, source.reactions, source.metabolites, source.genes;
    }

    method AddReaction(data: OperationData) returns (err: Option<ApplyError>)
      modifies this
      ensures Reflects(AddReactionTo(old(State()), data), old(State()), State(), err)
    {
      match data
      case NoData =>
        err := Some(KeyError("data"));
      case Bounds(_, _) =>
        err := Some(KeyError("id"));
      case ReactionDict(spec) =>
        var unknown := UnknownMetabolite(spec.metabolites, metabolites);
        if unknown.Some? {
          err := Some(KeyError(unknown.value));
          return;
        }
        var reaction := BuildReaction(spec);
        if IndexOfReaction(reactions, reaction.id).None? {
          reactions := reactions + [reaction];
          genes := AddGenes(genes, GenesOf(reaction.rule));
        }
        err := None;
    }

    method ModifyReaction(reactionId: string, data: OperationData) returns (err: Option<ApplyError>)
      modifies this
      ensures Reflects(ModifyReactionIn(old(State()), reactionId, data), old(State()), State(), err)
    {
      if data.NoData? {
        return Some(KeyError("data"));
      }
      var lower, upper;
      if data.Bounds? {
        lower, upper := data.lowerBound, data.upperBound;
      } else {
        lower, upper := data.reaction.lowerBound, data.reaction.upperBound;
      }
      var k := IndexOfReaction(reactions, reactionId);
      if k.None? {
        return Some(KeyError(reactionId));
      }
      reactions := reactions[k.value := reactions[k.value].(lower := lower, upper := upper)];
      err := None;
    }

    method KnockoutReaction(reactionId: string) returns (err: Option<ApplyError>)
      modifies this
      ensures Reflects(KnockoutReactionIn(old(State()), reactionId), old(State()), State(), err)
    {
      var k := IndexOfReaction(reactions, reactionId);
      if k.None? {
        return Some(KeyError(reactionId));
      }
      reactions := reactions[k.value := reactions[k.value].(lower := 0.0, upper := 0.0)];
      err := None;
    }

    method KnockoutGene(geneId: string) returns (err: Option<ApplyError>)
      modifies this
      ensures Reflects(KnockoutGeneIn(old(State()), geneId), old(State()), State(), err)
    {
      var k := FirstGeneIndex(genes, geneId);
      if k.None? {
        return Some(IndexError(geneId));
      }
      var gene := genes[k.value];
      genes := genes[k.value := gene.(functional := false)];
      reactions := CloseDisabled(reactions, gene.id, KnockedOut(genes));
      err := None;
    }

    /** `apply_operations(model, operations)` */
    method ApplyOperations(ops: seq<Operation>) returns (err: Option<ApplyError>)
      modifies this
      ensures ApplyAll(old(State()), ops) == if err.None? then Done(State()) else Failed(State(), err.value)
      ensures ValidState(old(State())) ==> ValidState(State())
    {
      var i := 0;
      while i < |ops|
        invariant 0 <= i <= |ops|
        invariant ApplyAll(old(State()), ops[..i]) == Done(State())
      {
        var op := ops[i];
        ghost var before := State();
        var e;
        if op.operation == "add" && op.kind == "reaction" {
          e := AddReaction(op.data);
        } else if op.operation == "modify" && op.kind == "reaction" {
          e := ModifyReaction(op.id, op.data);
        } else if op.operation == "knockout" && op.kind == "reaction" {
          e := KnockoutReaction(op.id);
        } else if op.operation == "knockout" && op.kind == "gene" {
          e := KnockoutGene(op.id);
        } else {
          e := Some(ValueError(op.operation, op.kind));
        }
        assert ops[..i + 1][..i] == ops[..i];
        if e.Some? {
          FailureIsFinal(old(State()), ops, i);
          err := e;
          if ValidState(old(State())) {
            ApplyAllPreservesValid(old(State()), ops);
          }
          return;
        }
        i := i + 1;
      }
      assert ops[..|ops|] == ops;
      err := None;
      if ValidState(old(State())) {
        ApplyAllPreservesValid(old(State()), ops);
      }
    }
  }

  /** Applying `a + b` is applying `a`, then (unless it failed) `b`. */
  lemma {:induction false} ApplyAllAppend(st: ModelState, a: seq<Operation>, b: seq<Operation>)
    ensures ApplyAll(st, a + b) == Continue(ApplyAll(st, a), b)
    decreases |b|
  {
    if |b| == 0 {
      assert a + b == a;
    } else {
      var b' := b[..|b| - 1];
      assert (a + b)[..|a + b| - 1] == a + b';
      assert (a + b)[|a + b| - 1] == b[|b| - 1];
      ApplyAllAppend(st, a, b');
    }
  }

  /**
   * No rollback: when operation `i` raises, the result is the model as the
   * earlier operations left it, with that exception.
   */
  lemma FailureIsFinal(st: ModelState, ops: seq<Operation>, i: nat)
    requires i < |ops| && ApplyAll(st, ops[..i]).Done?
    requires Step(ApplyAll(st, ops[..i]).state, ops[i]).Err?
    ensures ApplyAll(st, ops) == Failed(ApplyAll(st, ops[..i]).state, Step(ApplyAll(st, ops[..i]).state, ops[i]).error)
  {
    assert ops[..i + 1][..i] == ops[..i];
    assert ops == ops[..i + 1] + ops[i + 1..];
    ApplyAllAppend(st, ops[..i + 1], ops[i + 1..]);
  }

  lemma StepPreservesValid(st: ModelState, op: Operation)
    requires ValidState(st) && Step(st, op).Ok?
    ensures ValidState(Step(st, op).value)
  {
    if op.operation == "add" && op.kind == "reaction" && op.data.ReactionDict? {
      var reaction := BuildReaction(op.data.reaction);
      if !HasReaction(st, reaction.id) {
        AddGenesKeepsIdsUnique(st.genes, GenesOf(reaction.rule));
        var s := Step(st, op).value;
        assert s.genes == AddGenes(st.genes, GenesOf(reaction.rule));
        assert s.reactions == st.reactions + [reaction];
      }
    } else if op.operation == "knockout" && op.kind == "gene" {
      var s := Step(st, op).value;
      assert forall i :: 0 <= i < |s.genes| ==> s.genes[i].id == st.genes[i].id;
    }
  }

  lemma {:induction false} ApplyAllPreservesValid(st: ModelState, ops: seq<Operation>)
    requires ValidState(st)
    ensures ValidState(ApplyAll(st, ops).state)
    decreases |ops|
  {
    if |ops| > 0 {
      ApplyAllPreservesValid(st, ops[..|ops| - 1]);
      var prefix := ApplyAll(st, ops[..|ops| - 1]);
      if prefix.Done? && Step(prefix.state, ops[|ops| - 1]).Ok? {
        StepPreservesValid(prefix.state, ops[|ops| - 1]);
      }
    }
  }

  /** Registering genes never creates two genes with one id. */
  lemma {:induction false} AddGenesKeepsIdsUnique(genes: seq<Gene>, ids: seq<string>)
    requires UniqueGeneIds(genes)
    ensures UniqueGeneIds(AddGenes(genes, ids))
    decreases |ids|
  {
    if |ids| > 0 {
      if HasGene(genes, ids[0]) {
        AddGenesKeepsIdsUnique(genes, ids[1..]);
        assert AddGenes(genes, ids) == AddGenes(genes, ids[1..]);
      } else {
        AddGenesKeepsIdsUnique(genes + [Gene(ids[0], "", true)], ids[1..]);
      }
    }
  }

  /** In a valid model the reaction with a given id is the one at its position. */
  lemma IndexOfReactionInValid(st: ModelState, k: nat)
    requires ValidState(st) && k < |st.reactions|
    ensures IndexOfReaction(st.reactions, st.reactions[k].id) == Some(k)
  {
  }

  /**
   * `modify`/`reaction` sets that reaction's bounds to exactly the given pair,
   * whether or not `lower <= upper`, and changes nothing else.
   */
  lemma ModifySetsExactlyTheseBounds(st: ModelState, k: nat, lower: real, upper: real)
    requires ValidState(st) && k < |st.reactions|
    ensures var op := Operation("modify", "reaction", st.reactions[k].id, Bounds(lower, upper));
            && Step(st, op).Ok?
            && var s := Step(st, op).value;
            && |s.reactions| == |st.reactions|
            && s.reactions[k] == st.reactions[k].(lower := lower, upper := upper)
            && (forall i :: 0 <= i < |st.reactions| && i != k ==> s.reactions[i] == st.reactions[i])
            && s.id == st.id && s.metabolites == st.metabolites && s.genes == st.genes
  {
    IndexOfReactionInValid(st, k);
  }

  /** `modify` or `knockout` of a reaction id the model lacks raises `KeyError` and changes nothing. */
  lemma UnknownReactionRaisesKeyError(st: ModelState, op: Operation)
    requires op.kind == "reaction" && (op.operation == "knockout" || (op.operation == "modify" && !op.data.NoData?))
    requires !HasReaction(st, op.id)
    ensures Step(st, op) == Err(KeyError(op.id))
  {
  }

  /** `knockout`/`reaction` closes that reaction, bounds (0, 0), and changes nothing else. */
  lemma KnockoutClosesOnlyThatReaction(st: ModelState, k: nat, data: OperationData)
    requires ValidState(st) && k < |st.reactions|
    ensures var op := Operation("knockout", "reaction", st.reactions[k].id, data);
            && Step(st, op).Ok?
            && var s := Step(st, op).value;
            && |s.reactions| == |st.reactions|
            && s.reactions[k] == st.reactions[k].(lower := 0.0, upper := 0.0)
            && (forall i :: 0 <= i < |st.reactions| && i != k ==> s.reactions[i] == st.reactions[i])
            && s.id == st.id && s.metabolites == st.metabolites && s.genes == st.genes
  {
    IndexOfReactionInValid(st, k);
  }

  /**
   * `knockout`/`gene` fails exactly when no gene has that id or name (exact,
   * case-sensitive comparison); otherwise it knocks out the first such gene
   * and closes exactly those reactions whose rule mentions it and no longer
   * holds.
   */
  lemma KnockoutGeneTakesFirstMatch(st: ModelState, id: string, data: OperationData)
    ensures var r := Step(st, Operation("knockout", "gene", id, data));
            && (r.Err? <==> forall i :: 0 <= i < |st.genes| ==> st.genes[i].id != id && st.genes[i].name != id)
            && (r.Ok? ==>
                 exists k :: 0 <= k < |st.genes| && (st.genes[k].id == id || st.genes[k].name == id) &&
                   (forall j :: 0 <= j < k ==> st.genes[j].id != id && st.genes[j].name != id) &&
                   r.value.genes == st.genes[k := st.genes[k].(functional := false)] &&
                   r.value.metabolites == st.metabolites && |r.value.reactions| == |st.reactions| &&
                   forall i :: 0 <= i < |st.reactions| ==>
                     r.value.reactions[i] ==
                       if st.genes[k].id in GenesOf(st.reactions[i].rule) && !Holds(st.reactions[i].rule, KnockedOut(r.value.genes))
                       then st.reactions[i].(lower := 0.0, upper := 0.0)
                       else st.reactions[i])
  {
    var r := Step(st, Operation("knockout", "gene", id, data));
    if r.Ok? {
      var k := FirstGeneIndex(st.genes, id).value;
      assert r.value.genes == st.genes[k := st.genes[k].(functional := false)];
    }
  }

  /**
   * `add`/`reaction` builds the new reaction from `data` alone (the record's
   * own `id` is not used) and appends it, unless the id is already taken, in
   * which case the model stays as it was.
   */
  lemma AddBuildsReactionFromData(st: ModelState, recordId: string, otherId: string, spec: ReactionSpec)
    requires forall i :: 0 <= i < |spec.metabolites| ==> HasMetabolite(st.metabolites, spec.metabolites[i].0)
    ensures var r := Step(st, Operation("add", "reaction", recordId, ReactionDict(spec)));
            && r == Step(st, Operation("add", "reaction", otherId, ReactionDict(spec)))
            && r.Ok?
            && (HasReaction(st, spec.id) ==> r.value == st)
            && (!HasReaction(st, spec.id) ==>
                  r.value.reactions == st.reactions + [BuildReaction(spec)] &&
                  r.value.metabolites == st.metabolites && r.value.genes[..|st.genes|] == st.genes)
  {
  }

  /** Every (operation, type) pair other than the four supported ones raises `ValueError`. */
  lemma UnsupportedPairRaisesValueError(st: ModelState, op: Operation)
    requires !(op.kind == "reaction" && op.operation in {"add", "modify", "knockout"})
    requires !(op.kind == "gene" && op.operation == "knockout")
    ensures Step(st, op) == Err(ValueError(op.operation, op.kind))
  {
  }

  /** The last operation of a successful list, a `modify`, decides that reaction's bounds. */
  lemma LastModifyDecidesBounds(st: ModelState, ops: seq<Operation>, id: string, lower: real, upper: real)
    requires ApplyAll(st, ops + [Operation("modify", "reaction", id, Bounds(lower, upper))]).Done?
    ensures var s := ApplyAll(st, ops + [Operation("modify", "reaction", id, Bounds(lower, upper))]).state;
            exists k :: 0 <= k < |s.reactions| && s.reactions[k].id == id &&
                        s.reactions[k].lower == lower && s.reactions[k].upper == upper
  {
    var all := ops + [Operation("modify", "reaction", id, Bounds(lower, upper))];
    assert all[..|all| - 1] == ops;
    var before := ApplyAll(st, ops).state;
    var k := IndexOfReaction(before.reactions, id).value;
    assert ApplyAll(st, all).state.reactions[k].id == id;
  }

  /** Updating a reaction without changing its id leaves every id lookup as it was. */
  lemma IndexOfReactionAfterUpdate(reactions: seq<Reaction>, k: nat, reaction: Reaction, id: string)
    requires k < |reactions| && reaction.id == reactions[k].id
    ensures IndexOfReaction(reactions[k := reaction], id) == IndexOfReaction(reactions, id)
  {
    var a := IndexOfReaction(reactions[k := reaction], id);
    var b := IndexOfReaction(reactions, id);
    assert forall i :: 0 <= i < |reactions| ==> reactions[k := reaction][i].id == reactions[i].id;
  }

  /** A second `modify` of the same reaction overrides the first entirely. */
  lemma SecondModifyOverridesFirst(st: ModelState, id: string, first: OperationData, lower: real, upper: real)
    requires !first.NoData?
    ensures var second := Operation("modify", "reaction", id, Bounds(lower, upper));
            ApplyAll(st, [Operation("modify", "reaction", id, first), second]) == ApplyAll(st, [second])
  {
    var m1 := Operation("modify", "reaction", id, first);
    var m2 := Operation("modify", "reaction", id, Bounds(lower, upper));
    assert [m1, m2][..1] == [m1];
    assert [m1][..0] == [];
    assert [m2][..0] == [];
    var k := IndexOfReaction(st.reactions, id);
    if k.Some? {
      var s1 := Step(st, m1).value;
      IndexOfReactionAfterUpdate(st.reactions, k.value, s1.reactions[k.value], id);
      assert s1.reactions[k.value := s1.reactions[k.value].(lower := lower, upper := upper)] ==
             st.reactions[k.value := st.reactions[k.value].(lower := lower, upper := upper)];
    }
  }
}
