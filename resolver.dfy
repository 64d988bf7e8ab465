/**
 * Identifier resolution of the simulations service
 * (`simulations/modeling/cobra_helpers.py`): an entity matches a query when
 * its own id equals the query ignoring case, or when an annotation under a
 * key equal to the namespace (ignoring case) holds the query (ignoring case).
 * Metabolites are restricted to one compartment and are also tried with the
 * compartment appended to the query. Exactly one match is the answer; none is
 * "not found" and several are an `IndexError`.
 */
module Resolver {
  import opened Text
  import opened Metabolic
  import opened Collections

  /** Whether one annotation value holds the query, ignoring case. */
  function ValueMatches(v: AnnotationValue, queryId: string): (r: bool)
    ensures v.Single? ==> (r <==> EqualsIgnoreCase(queryId, v.value))
    ensures v.Many? ==> (r <==> exists k :: 0 <= k < |v.values| && EqualsIgnoreCase(queryId, v.values[k]))
  {
    match v
    case Many(values) =>
      var lowered := seq(|values|, k requires 0 <= k < |values| => Lower(values[k]));
      assert forall k :: 0 <= k < |values| ==> lowered[k] == Lower(values[k]);
      Lower(queryId) in lowered
    case Single(value) =>
      Lower(queryId) == Lower(value)
  }

  /**
   * The loop over `item.annotation`: it returns true at the first key that
   * equals the namespace and whose value holds the query, and otherwise goes
   * on with the later keys.
   */
  function ScanAnnotations(annotation: Annotation, queryId: string, queryNamespace: string): (r: bool)
    ensures r <==> (exists k :: 0 <= k < |annotation| &&
                      EqualsIgnoreCase(queryNamespace, annotation[k].0) && ValueMatches(annotation[k].1, queryId))
  {
    if |annotation| == 0 then false
    else if Lower(queryNamespace) == Lower(annotation[0].0) && ValueMatches(annotation[0].1, queryId) then true
    else
      var rest := ScanAnnotations(annotation[1..], queryId, queryNamespace);
      assert forall k :: 0 < k < |annotation| ==> annotation[k] == annotation[1..][k - 1];
      rest
  }

  /** `_query_item(item, query_id, query_namespace)` for an item with this id and annotation. */
  function QueryItem(itemId: string, annotation: Annotation, queryId: string, queryNamespace: string): (r: bool)
    ensures EqualsIgnoreCase(queryId, itemId) ==> r
    ensures r <==> EqualsIgnoreCase(queryId, itemId) ||
                   exists k :: 0 <= k < |annotation| &&
                     EqualsIgnoreCase(queryNamespace, annotation[k].0) && ValueMatches(annotation[k].1, queryId)
  {
    if Lower(queryId) == Lower(itemId) then true
    else ScanAnnotations(annotation, queryId, queryNamespace)
  }

  /** `query_fun` of `find_reaction` */
  predicate ReactionMatches(reaction: Reaction, id: string, namespace: string) {
    QueryItem(reaction.id, reaction.annotation, id, namespace)
  }

  /** `find_reaction(model, id, namespace)` */
  function FindReaction(reactions: seq<Reaction>, id: string, namespace: string): (r: Resolution<Reaction>)
    ensures r.NotFound? <==> forall i :: 0 <= i < |reactions| ==> !ReactionMatches(reactions[i], id, namespace)
    ensures r.Ambiguous? <==> (exists i, j :: 0 <= i < j < |reactions| &&
                                 ReactionMatches(reactions[i], id, namespace) && ReactionMatches(reactions[j], id, namespace))
    ensures r.Found? ==> exists i :: 0 <= i < |reactions| && reactions[i] == r.entity &&
                                     ReactionMatches(r.entity, id, namespace) &&
                                     forall j :: 0 <= j < |reactions| && j != i ==> !ReactionMatches(reactions[j], id, namespace)
  {
    var p := (x: Reaction) => ReactionMatches(x, id, namespace);
    UniqueQuery(reactions, p);
    PickUnique(Query(reactions, p))
  }

  /** `query_fun` of `find_metabolite`: the compartment filter, then the plain and the suffixed query. */
  predicate MetaboliteMatches(metabolite: Metabolite, id: string, namespace: string, compartment: string) {
    if metabolite.compartment != compartment then false
    else if QueryItem(metabolite.id, metabolite.annotation, id, namespace) then true
    else QueryItem(metabolite.id, metabolite.annotation, id + "_" + compartment, namespace)
  }

  /** `find_metabolite(model, id, namespace, compartment)` */
  function FindMetabolite(metabolites: seq<Metabolite>, id: string, namespace: string, compartment: string)
    : (r: Resolution<Metabolite>)
    ensures r.Found? ==> r.entity in metabolites && r.entity.compartment == compartment
    ensures r.NotFound? <==>
            forall i :: 0 <= i < |metabolites| && metabolites[i].compartment == compartment ==>
              !QueryItem(metabolites[i].id, metabolites[i].annotation, id, namespace) &&
              !QueryItem(metabolites[i].id, metabolites[i].annotation, id + "_" + compartment, namespace)
    ensures r.Ambiguous? <==> (exists i, j :: 0 <= i < j < |metabolites| &&
                                 MetaboliteMatches(metabolites[i], id, namespace, compartment) &&
                                 MetaboliteMatches(metabolites[j], id, namespace, compartment))
    ensures r.Found? ==> exists i :: 0 <= i < |metabolites| && metabolites[i] == r.entity &&
                                     MetaboliteMatches(r.entity, id, namespace, compartment) &&
                                     forall j :: 0 <= j < |metabolites| && j != i ==>
                                       !MetaboliteMatches(metabolites[j], id, namespace, compartment)
  {
    var p := (x: Metabolite) => MetaboliteMatches(x, id, namespace, compartment);
    UniqueQuery(metabolites, p);
    PickUnique(Query(metabolites, p))
  }

  /** The id test succeeds whatever namespace is asked for. */
  lemma IdMatchIgnoresNamespace(itemId: string, annotation: Annotation, queryId: string, ns1: string, ns2: string)
    requires EqualsIgnoreCase(queryId, itemId)
    ensures QueryItem(itemId, annotation, queryId, ns1) && QueryItem(itemId, annotation, queryId, ns2)
  {
  }

  /** Changing the case of the query or of the namespace never changes the answer. */
  lemma {:induction false} QueryItemIgnoresCase(itemId: string, annotation: Annotation,
                                                 q1: string, q2: string, ns1: string, ns2: string)
    requires EqualsIgnoreCase(q1, q2) && EqualsIgnoreCase(ns1, ns2)
    ensures QueryItem(itemId, annotation, q1, ns1) == QueryItem(itemId, annotation, q2, ns2)
  {
    forall k | 0 <= k < |annotation|
      ensures ValueMatches(annotation[k].1, q1) == ValueMatches(annotation[k].1, q2)
    {
    }
  }

  /**
   * Every key is consulted, so the order in which the annotation lists its
   * namespaces does not matter.
   */
  lemma {:induction false} QueryItemIgnoresAnnotationOrder(itemId: string, a1: Annotation, a2: Annotation,
                                                            queryId: string, queryNamespace: string)
    requires multiset(a1) == multiset(a2)
    ensures QueryItem(itemId, a1, queryId, queryNamespace) == QueryItem(itemId, a2, queryId, queryNamespace)
  {
    forall a: Annotation, b: Annotation, k | multiset(a) == multiset(b) && 0 <= k < |a| &&
                                              EqualsIgnoreCase(queryNamespace, a[k].0) && ValueMatches(a[k].1, queryId)
      ensures exists m :: 0 <= m < |b| && EqualsIgnoreCase(queryNamespace, b[m].0) && ValueMatches(b[m].1, queryId)
    {
      assert a[k] in multiset(a);
      assert a[k] in b;
    }
  }

  /** Lower-casing the query beforehand does not change which reaction is found. */
  lemma FindReactionIgnoresQueryCase(reactions: seq<Reaction>, id: string, namespace: string)
    ensures FindReaction(reactions, Lower(id), namespace) == FindReaction(reactions, id, namespace)
  {
    LowerIdempotent(id);
    forall i | 0 <= i < |reactions|
      ensures ReactionMatches(reactions[i], Lower(id), namespace) == ReactionMatches(reactions[i], id, namespace)
    {
      QueryItemIgnoresCase(reactions[i].id, reactions[i].annotation, Lower(id), id, namespace, namespace);
    }
    QueryAgreeing(reactions, (x: Reaction) => ReactionMatches(x, Lower(id), namespace),
                  (x: Reaction) => ReactionMatches(x, id, namespace));
  }

  /**
   * Lower-casing the query beforehand does not change which metabolite is
   * found: the suffixed query `id + "_" + compartment` ignores case as well.
   */
  lemma FindMetaboliteIgnoresQueryCase(metabolites: seq<Metabolite>, id: string, namespace: string, compartment: string)
    ensures FindMetabolite(metabolites, Lower(id), namespace, compartment) == FindMetabolite(metabolites, id, namespace, compartment)
  {
    LowerIdempotent(id);
    LowerAppend(Lower(id), "_");
    LowerAppend(id, "_");
    LowerAppend(Lower(id) + "_", compartment);
    LowerAppend(id + "_", compartment);
    assert EqualsIgnoreCase(Lower(id) + "_" + compartment, id + "_" + compartment);
    forall i | 0 <= i < |metabolites|
      ensures MetaboliteMatches(metabolites[i], Lower(id), namespace, compartment) ==
              MetaboliteMatches(metabolites[i], id, namespace, compartment)
    {
      var m := metabolites[i];
      QueryItemIgnoresCase(m.id, m.annotation, Lower(id), id, namespace, namespace);
      QueryItemIgnoresCase(m.id, m.annotation, Lower(id) + "_" + compartment, id + "_" + compartment, namespace, namespace);
    }
    QueryAgreeing(metabolites, (x: Metabolite) => MetaboliteMatches(x, Lower(id), namespace, compartment),
                  (x: Metabolite) => MetaboliteMatches(x, id, namespace, compartment));
  }

  /** A metabolite known only under the compartment-suffixed identifier is still found. */
  lemma SuffixedIdentifierResolves(metabolites: seq<Metabolite>, k: nat, id: string, namespace: string, compartment: string)
    requires k < |metabolites| && metabolites[k].compartment == compartment
    requires QueryItem(metabolites[k].id, metabolites[k].annotation, id + "_" + compartment, namespace)
    requires forall j :: 0 <= j < |metabolites| && j != k ==> !MetaboliteMatches(metabolites[j], id, namespace, compartment)
    ensures FindMetabolite(metabolites, id, namespace, compartment) == Found(metabolites[k])
  {
    var r := FindMetabolite(metabolites, id, namespace, compartment);
    assert MetaboliteMatches(metabolites[k], id, namespace, compartment);
    assert !r.NotFound?;
    assert !r.Ambiguous?;
  }

  /**
   * The suffix retry happens per candidate, not as a second pass after the
   * plain query failed: one metabolite matching the plain id and another one
   * matching the suffixed id make the query ambiguous.
   */
  lemma PlainAndSuffixedMatchesAreAmbiguous(metabolites: seq<Metabolite>, i: nat, j: nat,
                                            id: string, namespace: string, compartment: string)
    requires i < |metabolites| && j < |metabolites| && i != j
    requires metabolites[i].compartment == compartment && metabolites[j].compartment == compartment
    requires QueryItem(metabolites[i].id, metabolites[i].annotation, id, namespace)
    requires QueryItem(metabolites[j].id, metabolites[j].annotation, id + "_" + compartment, namespace)
    ensures FindMetabolite(metabolites, id, namespace, compartment).Ambiguous?
  {
    assert MetaboliteMatches(metabolites[i], id, namespace, compartment);
    assert MetaboliteMatches(metabolites[j], id, namespace, compartment);
    if i < j {
      assert 0 <= i < j < |metabolites|;
    } else {
      assert 0 <= j < i < |metabolites|;
    }
  }
}
