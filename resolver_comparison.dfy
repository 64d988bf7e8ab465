/**
 * How the two metabolite lookups differ. Every metabolite the older lookup
 * accepts, the newer one accepts too; the converse fails in three ways, one
 * witness each: the newer one compares the metabolite's own id, it consults
 * keys after a failed one, and it retries with the compartment suffix. The
 * older one, deciding at the first matching key, depends on the key order.
 */
module ResolverComparison {
  import opened Text
  import opened Metabolic
  import Resolver
  import LegacyResolver

  lemma LegacyMatchImpliesCurrentMatch(metabolite: Metabolite, id: string, namespace: string, compartment: string)
    ensures LegacyResolver.MetaboliteMatches(metabolite, id, namespace, compartment) ==>
            Resolver.MetaboliteMatches(metabolite, id, namespace, compartment)
  {
  }

  /** A metabolite without annotations, queried by its own id in any case: only the newer lookup matches. */
  lemma OnlyCurrentComparesOwnId(metabolite: Metabolite, id: string, namespace: string)
    requires metabolite.annotation == [] && EqualsIgnoreCase(id, metabolite.id)
    ensures Resolver.MetaboliteMatches(metabolite, id, namespace, metabolite.compartment)
    ensures !LegacyResolver.MetaboliteMatches(metabolite, id, namespace, metabolite.compartment)
  {
  }

  /**
   * Two keys equal to the namespace ignoring case, the id held only under the
   * second: the older lookup stops at the first and fails, the newer one goes
   * on and matches.
   */
  lemma OnlyCurrentConsultsLaterKeys(metabolite: Metabolite, i: nat, j: nat, id: string, namespace: string)
    requires i < j < |metabolite.annotation|
    requires EqualsIgnoreCase(namespace, metabolite.annotation[i].0) && EqualsIgnoreCase(namespace, metabolite.annotation[j].0)
    requires forall k :: 0 <= k < i ==> !EqualsIgnoreCase(namespace, metabolite.annotation[k].0)
    requires !Resolver.ValueMatches(metabolite.annotation[i].1, id) && Resolver.ValueMatches(metabolite.annotation[j].1, id)
    ensures Resolver.MetaboliteMatches(metabolite, id, namespace, metabolite.compartment)
    ensures !LegacyResolver.MetaboliteMatches(metabolite, id, namespace, metabolite.compartment)
  {
  }

  /** The same two keys the other way round: the older lookup now matches. */
  lemma LegacyDependsOnKeyOrder()
    ensures var a := [("BiGG", Single("a")), ("bigg", Single("b"))];
            var b := [("bigg", Single("b")), ("BiGG", Single("a"))];
            multiset(a) == multiset(b) &&
            !LegacyResolver.MetaboliteMatches(Metabolite("M1", "e", a), "b", "bigg", "e") &&
            LegacyResolver.MetaboliteMatches(Metabolite("M1", "e", b), "b", "bigg", "e")
  {
    assert Lower("BiGG") == Lower("bigg");
    assert Lower("b")[0] == 'b' && Lower("a")[0] == 'a';
  }

  /** An annotation carrying the suffixed id only: only the newer lookup retries with the suffix. */
  lemma OnlyCurrentRetriesWithSuffix()
    ensures var m := Metabolite("M_o2", "e", [("bigg.metabolite", Single("o2_e"))]);
            Resolver.MetaboliteMatches(m, "o2", "bigg.metabolite", "e") &&
            !LegacyResolver.MetaboliteMatches(m, "o2", "bigg.metabolite", "e")
  {
    assert "o2" + "_" + "e" == "o2_e";
    assert Lower("o2") != Lower("o2_e");
    assert Lower("o2") != Lower("M_o2");
  }
}
