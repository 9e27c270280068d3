/** The treatment catalogue: three chip filters, each with an "all" choice, the
    label functions of a card and its five evidence stars. */
module Treatments {

  import opened Common
  import opened Seqs
  import opened Text

  /** A catalogue row; cost, commitment and evidence are nullable columns. */
  datatype Treatment = Treatment(
    id: string,
    name: string,
    description: string,
    category: string,
    cost: Option<string>,
    commitment: Option<string>,
    evidence: Option<int>,
    affiliateUrl: Option<string>)

  /** The three chip selections. */
  datatype Filters = Filters(category: string, cost: string, commitment: string)

  const ALL: string := "all"

  /** Clear filters, and the page's first state. */
  const CLEARED: Filters := Filters(ALL, ALL, ALL)

  const CATEGORIES: seq<string> := [ALL, "topical", "supplement", "lifestyle", "professional"]
  const COSTS: seq<string> := [ALL, "low", "medium", "high"]
  const COMMITMENTS: seq<string> := [ALL, "low", "medium", "high"]

  /** A chip filter passes a value when it is "all" or the value is exactly its choice. */
  predicate Admits(choice: string, value: Option<string>)
  {
    choice == ALL || value == Some(choice)
  }

  predicate Passes(f: Filters, t: Treatment)
  {
    Admits(f.category, Some(t.category)) && Admits(f.cost, t.cost) && Admits(f.commitment, t.commitment)
  }

  function PassesFilters(f: Filters): Treatment -> bool
  {
    t => Passes(f, t)
  }

  /** `filtered`. */
  function Filtered(ts: seq<Treatment>, f: Filters): seq<Treatment>
  {
    Filter(ts, PassesFilters(f))
  }

  /** A treatment is kept exactly when every filter is "all" or equal to its
      field; a null cost or commitment passes only "all". */
  lemma FilteredMembers(ts: seq<Treatment>, f: Filters, k: nat)
    requires k < |ts|
    ensures Passes(f, ts[k]) ==> ts[k] in Filtered(ts, f)
    ensures ts[k] in Filtered(ts, f) ==> Passes(f, ts[k])
    ensures ts[k].cost.None? && f.cost != ALL ==> ts[k] !in Filtered(ts, f)
  {
    var r := Filtered(ts, f);
    if ts[k] in r {
      var j :| 0 <= j < |r| && r[j] == ts[k];
      assert PassesFilters(f)(r[j]);
    }
  }

  /** The list keeps its order, and cleared filters show all of it. */
  lemma FilteredOrder(ts: seq<Treatment>, f: Filters)
    ensures Subsequence(Filtered(ts, f), ts)
    ensures f == CLEARED ==> Filtered(ts, f) == ts
  {
    FilterIsSubsequence(ts, PassesFilters(f));
    if f == CLEARED {
      FilterKeepsAll(ts, PassesFilters(f));
    }
  }

  /** Narrowing a filter from "all" to a choice never adds a treatment. */
  lemma NarrowingShrinks(ts: seq<Treatment>, f: Filters, g: Filters)
    requires f.category == ALL || f.category == g.category
    requires f.cost == ALL || f.cost == g.cost
    requires f.commitment == ALL || f.commitment == g.commitment
    ensures Subsequence(Filtered(ts, g), Filtered(ts, f))
  {
    FilterMonotone(ts, PassesFilters(g), PassesFilters(f));
  }

  // ---------------------------------------------------------------- labels

  /** `cat.charAt(0).toUpperCase() + cat.slice(1)`. */
  function CategoryLabel(cat: string): string
  {
    if cat == [] then [] else [UpperChar(cat[0])] + cat[1..]
  }

  /** Only the first character changes, to its capital; the label of an empty
      category is empty, and labelling twice changes nothing more. */
  lemma CategoryLabelShape(cat: string)
    ensures |CategoryLabel(cat)| == |cat|
    ensures cat != [] ==> CategoryLabel(cat)[0] == UpperChar(cat[0]) && CategoryLabel(cat)[1..] == cat[1..]
    ensures CategoryLabel(CategoryLabel(cat)) == CategoryLabel(cat)
  {
    if cat != [] {
      assert CategoryLabel(cat)[1..] == cat[1..];
    }
  }

  /** The cost badge. */
  function CostLabel(c: Option<string>): string
  {
    if c.None? || c.value == "" then "—"
    else if c.value == "low" then "$"
    else if c.value == "medium" then "$$"
    else "$$$"
  }

  /** The commitment badge. */
  function CommitmentLabel(c: Option<string>): string
  {
    if c.None? || c.value == "" then "—"
    else if c.value == "low" then "Low effort"
    else if c.value == "medium" then "Regular"
    else "High effort"
  }

  /** Null and empty levels show a dash; "low" and "medium" have their own
      badges; every other level, "high" included, shows the top badge. */
  lemma LevelLabels(c: Option<string>)
    ensures CostLabel(c) == "—" <==> c.None? || c.value == ""
    ensures CommitmentLabel(c) == "—" <==> c.None? || c.value == ""
    ensures c.Some? && c.value !in {"", "low", "medium"} ==> CostLabel(c) == "$$$" && CommitmentLabel(c) == "High effort"
    ensures CostLabel(Some("low")) == "$" && CostLabel(Some("medium")) == "$$"
    ensures CommitmentLabel(Some("low")) == "Low effort" && CommitmentLabel(Some("medium")) == "Regular"
  {
  }

  // ---------------------------------------------------------------- evidence stars

  /** Five stars; star `idx` is filled when `idx < (rating ?? 0)`. */
  function Stars(rating: Option<int>): (stars: seq<bool>)
    ensures |stars| == 5
  {
    var r := if rating.Some? then rating.value else 0;
    seq(5, idx => idx < r)
  }

  function CountFilled(stars: seq<bool>): nat
  {
    if stars == [] then 0 else (if stars[0] then 1 else 0) + CountFilled(stars[1..])
  }

  /** The rating clamped to 0..5. */
  function Clamp(r: int): nat
  {
    if r < 0 then 0 else if r > 5 then 5 else r
  }

  /** The filled stars are a prefix of the row, their number is the rating
      clamped to 0..5, and a null rating fills none. */
  lemma StarsFilled(rating: Option<int>)
    ensures var stars := Stars(rating);
      var r := if rating.Some? then rating.value else 0;
      && (forall idx :: 0 <= idx < 5 ==> (stars[idx] <==> idx < Clamp(r)))
      && CountFilled(stars) == Clamp(r)
    ensures rating.None? ==> CountFilled(Stars(rating)) == 0
  {
    var stars := Stars(rating);
    var r := if rating.Some? then rating.value else 0;
    PrefixCount(stars, Clamp(r));
  }

  lemma {:induction false} PrefixCount(stars: seq<bool>, n: nat)
    requires n <= |stars|
    requires forall idx :: 0 <= idx < |stars| ==> (stars[idx] <==> idx < n)
    ensures CountFilled(stars) == n
    decreases |stars|
  {
    if stars != [] {
      PrefixCount(stars[1..], if n > 0 then n - 1 else 0);
    }
  }
}
