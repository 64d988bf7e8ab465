# Metabolic model service: identifier resolution, operations and request handling

This project models three parts of the DD-DeCaF simulations service in Dafny and proves their properties.

- **Identifier resolution.** The service finds a reaction or a metabolite in a metabolic model from an identifier and a MIRIAM namespace.
  - The newer lookup (`simulations/modeling/cobra_helpers.py`) matches the entity's own id or one of its annotations, ignoring case. For metabolites it filters by compartment, and it retries each candidate with the identifier suffixed by `_<compartment>`.
  - The older lookup (`model/modeling/cobra_helpers.py`) reads annotations only. It stops at the first annotation key that names the namespace, and its compartment defaults to `"e"`.
  - Both report zero matches as "not found" and several matches as an `IndexError`.
- **Operations.** `apply_operations` applies a list of `{operation, type, id, data}` records to a model in place, one at a time and in list order. It supports four kinds: add a reaction, modify a reaction's bounds, knock out a reaction, and knock out a gene. Any other kind raises `ValueError`, and nothing already applied is rolled back.
- **Request handling.** `model_get_modified`, `model_modify` and `model_simulate` decide the order in which operations are collected, replayed and applied. They also decide which failure becomes which HTTP status.

Module layout:

| file | module | contents |
|---|---|---|
| `wrappers.dfy` | `Wrappers` | `Option` and `Result` |
| `text.dfy` | `Text` | ASCII lower-casing, the model of `str.lower()` |
| `collections.dfy` | `Collections` | `DictList.query` and the "exactly one match" policy |
| `metabolic.dfy` | `Metabolic` | reactions, metabolites, genes, gene-reaction rules, model contents |
| `resolver.dfy` | `Resolver` | the newer `_query_item`, `find_reaction`, `find_metabolite` |
| `legacy_resolver.dfy` | `LegacyResolver` | the older `find_metabolite` |
| `resolver_comparison.dfy` | `ResolverComparison` | how the two lookups differ |
| `operations.dfy` | `Operations` | `apply_operations`: the class `Model`, whose methods change its fields, and the function `ApplyAll` that specifies them |
| `resources.dfy` | `Resources` | the three request handlers as methods over abstract collaborators |

Some code-level behaviour is stated differently in prose descriptions of the service. The model follows the code in each case:

- **Suffix retry.** The retry with `id + "_" + compartment` happens inside the per-metabolite predicate (`simulations/modeling/cobra_helpers.py:97-108`). It is not a second pass run only after the plain query found nothing. So the matches are the union of both forms, and one plain match plus one suffixed match is ambiguous.
- **Gene lookup.** A gene knockout takes the first gene whose id or name equals the given id, in one pass (`model/operations.py:56`). It does not search ids first and names second.
- **Duplicate reaction ids.** An `add` whose reaction id already exists leaves the model as it was, which is what cobrapy's `add_reactions` does. It raises no error.
- **KeyError in `model_get_modified`.** Every `KeyError` raised while applying operations is answered with 400 "Missing field 'operations'" (`model/resources.py:50-53`). That includes an unknown reaction id.
- **Other apply errors.** Every other error propagates and becomes a 500. So does every error from applying operations in `model_simulate`.

## Model

| member | source | states |
|---|---|---|
| Collections.Query | src/simulations/modeling/cobra_helpers.py:53 | `DictList.query` keeps exactly the items satisfying the predicate: every result is an item that satisfies it, every satisfying item is in the result, and there are no more results than items |
| Collections.QueryAgreeing | src/simulations/modeling/cobra_helpers.py:53 | two predicates that agree on every item of the collection select the same items |
| Collections.PickUnique | src/simulations/modeling/cobra_helpers.py:54-62 | the length policy on the query result: none is "not found", more than one is `IndexError`, exactly one is that entity |
| Collections.QueryManyIff | src/simulations/modeling/cobra_helpers.py:59-60 | the query returns at least two entities exactly when two distinct positions of the collection satisfy the predicate |
| Collections.QueryOne | src/simulations/modeling/cobra_helpers.py:61-62 | a query with exactly one result found it at one position, and no other position satisfies the predicate |
| Collections.UniqueQuery | src/simulations/modeling/cobra_helpers.py:53-62 | the length policy, stated over the searched list: "not found" iff nothing matches; `IndexError` iff two positions match; otherwise the returned entity is the single matching one |
| Text.LowerIdempotent | src/simulations/modeling/cobra_helpers.py:144 | lower-casing twice is the same as lower-casing once |
| Text.Lower | src/simulations/modeling/cobra_helpers.py:144 | `str.lower()` on ASCII: the result has the same length, contains no capital letter, and differs from the input only where a capital letter became its lower-case form |
| Text.LowerAppend | src/simulations/modeling/cobra_helpers.py:108 | lower-casing distributes over concatenation, so the suffixed query `id_compartment` lower-cases part by part |
| Resolver.ValueMatches | src/simulations/modeling/cobra_helpers.py:151-158 | a list-valued annotation matches iff some element equals the query ignoring case; a scalar matches iff it equals the query ignoring case |
| Resolver.ScanAnnotations | src/simulations/modeling/cobra_helpers.py:147-159 | the annotation loop is true iff some key (any position, not only the first matching one) equals the namespace ignoring case and its value matches |
| Resolver.QueryItem | src/simulations/modeling/cobra_helpers.py:123-159 | `_query_item` is true whenever the query equals the item id ignoring case, and false exactly when neither the id test nor any annotation under a matching key succeeds |
| Resolver.IdMatchIgnoresNamespace | src/simulations/modeling/cobra_helpers.py:143-145 | an id match makes `_query_item` true for every namespace argument |
| Resolver.QueryItemIgnoresCase | src/simulations/modeling/cobra_helpers.py:144-157 | changing the case of the query id or of the namespace does not change the answer |
| Resolver.QueryItemIgnoresAnnotationOrder | src/simulations/modeling/cobra_helpers.py:147-159 | because every key is consulted, reordering the annotation does not change the answer |
| Resolver.FindReaction | src/simulations/modeling/cobra_helpers.py:50-62 | `ReactionNotFound` iff no reaction matches; `IndexError` iff two reactions match; otherwise the reaction returned is the only one that matches |
| Resolver.FindReactionIgnoresQueryCase | src/simulations/modeling/cobra_helpers.py:50-62 | passing the query id already lower-cased finds the same reaction (or raises the same error) |
| Resolver.FindMetabolite | src/simulations/modeling/cobra_helpers.py:97-120 | a returned metabolite is in the model and in the requested compartment; `MetaboliteNotFound` iff no metabolite of the compartment matches the plain or the suffixed id; `IndexError` iff two match; otherwise the returned one is the unique match |
| Resolver.MetaboliteMatches | src/simulations/modeling/cobra_helpers.py:97-108 | `query_fun`: false outside the compartment; otherwise `_query_item` on the plain id, and only if that fails, on `id + "_" + compartment`, for this candidate |
| Resolver.FindMetaboliteIgnoresQueryCase | src/simulations/modeling/cobra_helpers.py:97-120 | passing the query id already lower-cased finds the same metabolite (or raises the same error), the suffixed retry included |
| Resolver.SuffixedIdentifierResolves | src/simulations/modeling/cobra_helpers.py:105-108 | a metabolite known only under `id_compartment` is found when it is the only match |
| Resolver.PlainAndSuffixedMatchesAreAmbiguous | src/simulations/modeling/cobra_helpers.py:97-118 | one metabolite matching the plain id and another matching the suffixed id make the lookup raise `IndexError`, because the retry is per candidate |
| LegacyResolver.ScanFirstNamespace | src/model/modeling/cobra_helpers.py:52-62 | true iff the first key equal to the namespace ignoring case holds the id (by case-insensitive membership in a list, or equality with a scalar); with no such key it is false |
| LegacyResolver.MetaboliteMatches | src/model/modeling/cobra_helpers.py:48-62 | the older `query_fun`: false outside the compartment, otherwise the first-namespace-key scan of the annotation |
| LegacyResolver.FindMetabolite | src/model/modeling/cobra_helpers.py:20-73 | a returned metabolite is in the model and in the compartment; `MetaboliteNotFound` iff none matches; `IndexError` iff two match; otherwise the unique match |
| LegacyResolver.DefaultSearchesExtracellular | src/model/modeling/cobra_helpers.py:20 | without a compartment argument the lookup searches `"e"`, and any metabolite it returns is extracellular |
| LegacyResolver.OwnIdIgnored | src/model/modeling/cobra_helpers.py:48-62 | the metabolite's own id never affects the match |
| LegacyResolver.FirstKeyDecides | src/model/modeling/cobra_helpers.py:53-61 | once a key equal to the namespace is reached, the keys after it cannot change the answer |
| ResolverComparison.LegacyMatchImpliesCurrentMatch | src/model/modeling/cobra_helpers.py:48-62 | every metabolite the older predicate accepts, the newer predicate accepts too |
| ResolverComparison.OnlyCurrentComparesOwnId | src/simulations/modeling/cobra_helpers.py:143-145 | for every metabolite without annotations, a query for its own id (in any case) in its compartment matches the newer predicate and not the older one |
| ResolverComparison.OnlyCurrentConsultsLaterKeys | src/simulations/modeling/cobra_helpers.py:148-158 | for every annotation with two keys equal to the namespace ignoring case, where the id is held under the second and not the first, the newer predicate matches and the older one does not |
| ResolverComparison.LegacyDependsOnKeyOrder | src/model/modeling/cobra_helpers.py:53-61 | the older predicate's answer changes when the same annotation entries are listed in another order |
| ResolverComparison.OnlyCurrentRetriesWithSuffix | src/simulations/modeling/cobra_helpers.py:105-108 | an annotation carrying only `o2_e`, queried as `o2` in compartment `e`, matches only the newer predicate |
| Operations.IndexOfReaction | src/model/operations.py:46 | `get_by_id`: a returned position holds that id and no earlier position does; none is returned iff no reaction has the id |
| Operations.FirstGeneIndex | src/model/operations.py:56 | the first gene whose id or name equals the given id exactly; none iff no gene has it as id or name |
| Operations.UnknownMetabolite | src/model/operations.py:40 | `reaction_from_dict` fails iff some metabolite of the reaction is not in the model, and then it names such a metabolite |
| Operations.AddGenes | src/model/operations.py:41 | adding a reaction keeps the existing genes as a prefix, registers every gene its rule mentions, and adds only functional genes with an empty name that the rule names |
| Operations.CloseDisabled | src/model/operations.py:57 | the effect of `gene.knock_out()` on reactions: each reaction whose rule names the gene and no longer holds gets bounds (0, 0); the others are kept |
| Operations.Step | src/model/operations.py:25-35 | one pass of the loop: dispatch on the (operation, type) pair to the four helpers, `ValueError` for any other pair |
| Operations.Model.AddReaction | src/model/operations.py:38-41 | the new contents and the error are those that `AddReactionTo` gives for the old contents |
| Operations.Model.ModifyReaction | src/model/operations.py:44-46 | the new contents and the error are those that `ModifyReactionIn` gives for the old contents |
| Operations.Model.KnockoutReaction | src/model/operations.py:49-51 | the new contents and the error are those that `KnockoutReactionIn` gives for the old contents |
| Operations.Model.KnockoutGene | src/model/operations.py:54-57 | the new contents and the error are those that `KnockoutGeneIn` gives for the old contents |
| Operations.Model.ApplyOperations | src/model/operations.py:23-35 | after the loop, the contents are those that `ApplyAll` gives for the old contents and the whole list; an error means the contents are those left just before the failing operation; unique reaction and gene ids are preserved |
| Operations.ApplyAllAppend | src/model/operations.py:24 | applying `a + b` is applying `a` and then, unless `a` failed, `b` on the result |
| Operations.FailureIsFinal | src/model/operations.py:24-35 | the first failing operation ends the run with the state reached before it; later operations are not applied |
| Operations.StepPreservesValid | src/model/operations.py:25-32 | each supported operation keeps reaction ids and gene ids unique |
| Operations.ApplyAllPreservesValid | src/model/operations.py:23-35 | a whole operation list keeps reaction ids and gene ids unique |
| Operations.AddGenesKeepsIdsUnique | src/model/operations.py:41 | registering a rule's genes does not create duplicate gene ids |
| Operations.IndexOfReactionInValid | src/model/operations.py:46 | in a model with unique reaction ids, `get_by_id` of a reaction's id finds that reaction |
| Operations.ModifySetsExactlyTheseBounds | src/model/operations.py:44-46 | `modify` sets that reaction's bounds to exactly the given pair (with no `lower <= upper` check) and changes no other reaction, metabolite or gene |
| Operations.UnknownReactionRaisesKeyError | src/model/operations.py:46-51 | `modify` or `knockout` of an unknown reaction id raises `KeyError` for that id |
| Operations.KnockoutClosesOnlyThatReaction | src/model/operations.py:49-51 | a reaction knockout sets that reaction's bounds to (0, 0) and changes nothing else |
| Operations.KnockoutGeneTakesFirstMatch | src/model/operations.py:54-57 | a gene knockout fails iff no gene has the id as id or name; otherwise it disables the first such gene, closes (bounds (0, 0)) exactly the reactions whose rule names it and no longer holds, and leaves every other reaction unchanged |
| Operations.AddBuildsReactionFromData | src/model/operations.py:38-41 | the added reaction comes from `data` alone, and the record's `id` does not matter; it is appended unless its id exists, in which case the model is unchanged |
| Operations.UnsupportedPairRaisesValueError | src/model/operations.py:33-35 | every (operation, type) pair outside the four supported ones raises `ValueError` |
| Operations.LastModifyDecidesBounds | src/model/operations.py:24-28 | after a successful list that ends with a `modify`, that reaction has exactly the bounds of that `modify` |
| Operations.IndexOfReactionAfterUpdate | src/model/operations.py:46 | changing a reaction without changing its id leaves every id lookup as it was |
| Operations.SecondModifyOverridesFirst | src/model/operations.py:24-28 | two `modify` operations on one reaction give the same outcome as the second one alone |
| Resources.DeltaStore.Save | src/model/resources.py:105 | saving stores `(model id, conditions, operations)` under the key for the model id and conditions, and returns that key |
| Resources.ModelGetModified | src/model/resources.py:32-55 | 415 for non-JSON; 401/403/404 for the store's errors; 400 for a missing `operations`; otherwise the operations applied to a copy of the stored model: the resulting model on success, 400 on a `KeyError`, 500 on any other error |
| Resources.AssembleOperations | src/model/resources.py:81-98 | operations are the medium, then genotype, then measurements adapter results, each only if its key is present; errors are concatenated in the same order; no error at all iff no adapter reported one |
| Resources.ModelModify | src/model/resources.py:58-106 | 415, then store errors, then 400 for missing `conditions`; if any adapter reported an error the response is the errors and no delta is saved; otherwise the delta `(model id, conditions, operations)` is saved and the same operations are returned; the stored model is unchanged |
| Resources.ModelSimulate | src/model/resources.py:109-172 | 415 for non-JSON; otherwise the failure from resolving the model (`SimulationSubject`), or the outcome of replaying and simulating (`SimulationResponse`) |
| Resources.ReplayedOperations | src/model/resources.py:152-162 | the operations to apply: the stored delta's, if `delta_id` is given, followed by the request's own; nothing when the delta id is unknown |
| Resources.StoredDeltaRunsFirst | src/model/resources.py:152-164 | the stored delta's operations are applied before the request's own operations; the request's operations run on the state the delta left, and do not run if the delta failed |
| Resources.UnknownDeltaIsNotFound | src/model/resources.py:154-159 | an unknown `delta_id` gives 404 and no operation is applied, whatever the model |
| Resources.ModelIdTakesPrecedence | src/model/resources.py:113-131 | with `model_id` present, the body's `model` and `biomass_reaction` do not affect which model is simulated |
| Resources.PostedModelNeedsItsBiomassReaction | src/model/resources.py:131-148 | a posted model is simulated iff `biomass_reaction` is given and names one of its reactions; otherwise the answer is 400 |
| Resources.SimulationMethodDefaultsToFba | src/model/resources.py:167 | without `method`, the simulation runs with `"fba"` |

The handlers have no `modifies` clause for the store or its models. The verifier therefore forbids them to change the stored, shared models. `model_get_modified` and `model_simulate` apply their operations to a fresh copy made with `Model.Copy` (`model/resources.py:48, 74, 130`).

## Left out

- I/O and framework: Flask routing, JSON parsing and serialisation, logging, `metrics` and `healthz`. A request is a record of optional fields, and a response is a datatype carrying the status code. Error message texts are not modelled; a reason constructor stands in for each.
- The model store, the delta store, the condition adapters, `model_from_dict` and `simulate` are collaborators whose code is not part of this model.
  - The stores are small classes over a map. The delta key is an arbitrary function of the model id and conditions.
  - The adapters, deserialisation and simulation are function parameters with no further contract.
- Floating point: bounds and fluxes are `real`. There is no rounding, no tolerance and no solver.
- `str.lower()` is modelled on ASCII letters only. Every case-insensitivity property is stated relative to `Text.Lower`.
- The copy is modelled as a copy of the model contents. Object identity of reactions inside cobrapy is not modelled.
- cobrapy internals are modelled by their observable effect only.
  - `reaction_from_dict` fails with `KeyError` on an unknown metabolite.
  - `add_reactions` ignores an existing id and registers new genes.
  - `Gene.knock_out` closes each reaction of that gene whose rule no longer holds.
  - Gene-reaction rules are a small and/or datatype rather than parsed text.
- Operations.AddReactionTo: `data` with bounds only is refused with `KeyError("id")`, standing for `reaction_from_dict`'s missing-key error. Other malformed dicts are not modelled: the typed `ReactionSpec` always has every field.
- Operations.AddGenes: new genes are appended in the order the rule lists them. cobrapy's own ordering of new genes is not part of this model.
- The annotation is an ordered list of `(namespace, value)` pairs, as a Python dict iterates. Duplicate keys differing only in case are allowed, which is the case the two lookups disagree on.
