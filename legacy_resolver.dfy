/**
 * The older metabolite lookup of the model service
 * (`model/modeling/cobra_helpers.py`). It looks at annotations only, never at
 * the metabolite's own id; the first annotation key equal to the namespace
 * (ignoring case) decides the answer, later keys are not examined; there is
 * no compartment-suffix retry; and the compartment defaults to `"e"`.
 */
module LegacyResolver {
  import opened Text
  import opened Metabolic
  import opened Collections
  import Resolver

  /** The compartment searched when the caller names none: the extracellular one. */
  const DefaultCompartment: string := "e"

  /**
   * The loop over `metabolite.annotation`: the first key equal to the
   * namespace returns whether its value holds the id; no such key gives false.
   */
  function ScanFirstNamespace(annotation: Annotation, id: string, namespace: string): (r: bool)
    ensures r <==> (exists k :: 0 <= k < |annotation| && EqualsIgnoreCase(namespace, annotation[k].0) &&
                      (forall j :: 0 <= j < k ==> !EqualsIgnoreCase(namespace, annotation[j].0)) &&
                      Resolver.ValueMatches(annotation[k].1, id))
  {
    if |annotation| == 0 then false
    else if Lower(namespace) == Lower(annotation[0].0) then Resolver.ValueMatches(annotation[0].1, id)
    else
      var rest := ScanFirstNamespace(annotation[1..], id, namespace);
      assert forall k :: 0 < k < |annotation| ==> annotation[k] == annotation[1..][k - 1];
      rest
  }

  /** `query_fun` of the older `find_metabolite` */
  predicate MetaboliteMatches(metabolite: Metabolite, id: string, namespace: string, compartment: string) {
    if metabolite.compartment != compartment then false
    else ScanFirstNamespace(metabolite.annotation, id, namespace)
  }

  /** `find_metabolite(model, id, namespace, compartment='e')` */
  function FindMetabolite(metabolites: seq<Metabolite>, id: string, namespace: string,
                          compartment: string := DefaultCompartment): (r: Resolution<Metabolite>)
    ensures r.Found? ==> r.entity in metabolites && r.entity.compartment == compartment
    ensures r.NotFound? <==> forall i :: 0 <= i < |metabolites| ==> !MetaboliteMatches(metabolites[i], id, namespace, compartment)
    ensures r.Ambiguous? <==> (exists i, j :: 0 <= i < j < |metabolites| &&
                                 MetaboliteMatches(metabolites[i], id, namespace, compartment) &&
                                 MetaboliteMatches(metabolites[j], id, namespace, compartment))
    ensures r.Found? ==> exists i :: 0 <= i < |metabolites| && metabolites[i] == r.entity &&
                                     MetaboliteMatches(r.entity, id, namespace, compartment) &&
                                     forall j :: 0 <= j < |metabolites| && j != i ==>
                                       !MetaboliteMatches(metabolites[j], id, namespace, compartment)
  {
    var p := (x: Metabolite) => MetaboliteMatches(x, id, namespace, compartment);
    UniqueQuery(metabolites, p);
    PickUnique(Query(metabolites, p))
  }

  /** Leaving out the compartment searches the extracellular compartment `"e"`. */
  lemma DefaultSearchesExtracellular(metabolites: seq<Metabolite>, id: string, namespace: string)
    ensures FindMetabolite(metabolites, id, namespace) == FindMetabolite(metabolites, id, namespace, "e")
    ensures FindMetabolite(metabolites, id, namespace).Found? ==>
            FindMetabolite(metabolites, id, namespace).entity.compartment == "e"
  {
  }

  /** The metabolite's own id takes no part in the match. */
  lemma OwnIdIgnored(metabolite: Metabolite, otherId: string, id: string, namespace: string, compartment: string)
    ensures MetaboliteMatches(metabolite, id, namespace, compartment) ==
            MetaboliteMatches(metabolite.(id := otherId), id, namespace, compartment)
  {
  }

  /**
   * Once a key equal to the namespace is reached, no later key can change the
   * answer: appending entries after such a key leaves the scan as it was.
   */
  lemma {:induction false} FirstKeyDecides(annotation: Annotation, later: Annotation, k: nat, id: string, namespace: string)
    requires k < |annotation| && EqualsIgnoreCase(namespace, annotation[k].0)
    ensures ScanFirstNamespace(annotation + later, id, namespace) == ScanFirstNamespace(annotation, id, namespace)
    decreases |annotation|
  {
    assert (annotation + later)[0] == annotation[0];
    if Lower(namespace) != Lower(annotation[0].0) {
      assert (annotation + later)[1..] == annotation[1..] + later;
      FirstKeyDecides(annotation[1..], later, k - 1, id, namespace);
    }
  }
}
