/** `getEssentialNutrients(nutrients)` of the nutrients screen: the
    nutrients whose name is on a fixed allow-list of ten and whose amount
    is present, in their original order. */
module EssentialNutrients {
  import opened Wrappers
  import opened NutritionTypes
  import Seqs

  /** The allow-list, in the order the screen declares it. */
  const EssentialNames: seq<string> := [
    "Protein",
    "Total lipid (fat)",
    "Carbohydrate, by difference",
    "Total Sugars",
    "Vitamin B-6",
    "Fiber, total dietary",
    "Sodium, Na",
    "Calcium, Ca",
    "Iron, Fe",
    "Vitamin C, total ascorbic acid"
  ]

  /** `essentialNames.includes(name)`: an undefined name is never included. */
  predicate IsEssentialName(name: Option<string>) {
    name.Some? && name.value in EssentialNames
  }

  /** The amount is neither `undefined` nor `null`. */
  predicate HasAmount(n: Nutrient) {
    !n.amount.Undefined? && !n.amount.Null?
  }

  predicate IsEssential(n: Nutrient) {
    IsEssentialName(n.name) && HasAmount(n)
  }

  function Essential(): Nutrient -> bool {
    (n: Nutrient) => IsEssential(n)
  }

  /** The filtered list: an order-preserving subsequence of the input whose
      members all pass both tests, holding every input nutrient that passes
      them, as often as it occurs. */
  function GetEssentialNutrients(ns: seq<Nutrient>): (r: seq<Nutrient>)
    ensures Seqs.IsSubsequence(r, ns)
    ensures |r| <= |ns|
    ensures forall i :: 0 <= i < |r| ==> IsEssentialName(r[i].name) && HasAmount(r[i])
    ensures forall i :: 0 <= i < |ns| && IsEssential(ns[i]) ==> ns[i] in r
    ensures forall n :: IsEssential(n) ==> multiset(r)[n] == multiset(ns)[n]
  {
    var r := Seqs.Filter(ns, Essential());
    Seqs.FilterIsSubsequence(ns, Essential());
    Seqs.FilterOutputPasses(ns, Essential());
    Seqs.FilterMembers(ns, Essential());
    Seqs.FilterCounts(ns, Essential());
    r
  }

  /** Filtering the filtered list again changes nothing. */
  lemma {:induction false} GetEssentialNutrientsIdempotent(ns: seq<Nutrient>)
    ensures GetEssentialNutrients(GetEssentialNutrients(ns)) == GetEssentialNutrients(ns)
  {
    var r := GetEssentialNutrients(ns);
    Seqs.FilterAllPass(r, Essential());
  }
}
