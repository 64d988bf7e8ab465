/**
 * The entities of a metabolic model, as the resolvers and the operations see
 * them: reactions, metabolites and genes, each with an id, and annotations
 * mapping a namespace to one external identifier or to a list of them.
 */
module Metabolic {

  /** An annotation value is a single identifier or a list of identifiers. */
  datatype AnnotationValue = Single(value: string) | Many(values: seq<string>)

  /** `item.annotation`: namespace keys with their values, in dict iteration order. */
  type Annotation = seq<(string, AnnotationValue)>

  /**
   * A parsed gene-reaction rule. `NoRule` is the empty rule, which keeps the
   * reaction functional whatever genes are knocked out.
   */
  datatype GeneRule = NoRule | GeneRef(gene: string) | And(left: GeneRule, right: GeneRule) | Or(left: GeneRule, right: GeneRule)

  /** Whether the rule still holds when the genes in `knockedOut` are not functional. */
  predicate Holds(rule: GeneRule, knockedOut: set<string>) {
    match rule
    case NoRule => true
    case GeneRef(g) => g !in knockedOut
    case And(l, r) => Holds(l, knockedOut) && Holds(r, knockedOut)
    case Or(l, r) => Holds(l, knockedOut) || Holds(r, knockedOut)
  }

  /** The gene ids a rule mentions, left to right (repetitions kept). */
  function GenesOf(rule: GeneRule): seq<string> {
    match rule
    case NoRule => []
    case GeneRef(g) => [g]
    case And(l, r) => GenesOf(l) + GenesOf(r)
    case Or(l, r) => GenesOf(l) + GenesOf(r)
  }

  datatype Reaction = Reaction(
    id: string,
    name: string,
    annotation: Annotation,
    stoichiometry: seq<(string, real)>,
    lower: real,
    upper: real,
    rule: GeneRule)

  datatype Metabolite = Metabolite(id: string, compartment: string, annotation: Annotation)

  datatype Gene = Gene(id: string, name: string, functional: bool)

  /** The contents of a `cobra.Model`: its id and its three ordered collections. */
  datatype ModelState = ModelState(
    id: string,
    reactions: seq<Reaction>,
    metabolites: seq<Metabolite>,
    genes: seq<Gene>)

  /** `model.reactions.has_id(id)` */
  predicate HasReaction(st: ModelState, id: string) {
    exists i :: 0 <= i < |st.reactions| && st.reactions[i].id == id
  }

  /** The ids of the genes that are not functional. */
  function KnockedOut(genes: seq<Gene>): set<string> {
    set i | 0 <= i < |genes| && !genes[i].functional :: genes[i].id
  }

  /** No two genes share an id. */
  predicate UniqueGeneIds(genes: seq<Gene>) {
    forall i, j :: 0 <= i < j < |genes| ==> genes[i].id != genes[j].id
  }

  /** A DictList keeps its members' ids unique; so does every collection of a model. */
  ghost predicate ValidState(st: ModelState) {
    && (forall i, j :: 0 <= i < j < |st.reactions| ==> st.reactions[i].id != st.reactions[j].id)
    && UniqueGeneIds(st.genes)
  }
}
