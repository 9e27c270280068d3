/** The specialist directory: a fixed list of six clinics, two drop-down
    filters with an "All" choice and a case-insensitive search over name and
    address, and the city list built from the clinics without repeats. */
module Specialists {

  import opened Common
  import opened Seqs
  import opened Text

  datatype Clinic = Clinic(
    id: string, name: string, specialty: string, location: string, city: string, acceptsReport: bool)

  const CLINICS: seq<Clinic> := [
    Clinic("1", "Hairline Restoration Clinic", "Hair Transplant", "123 Medical Center Dr", "New York", true),
    Clinic("2", "Derma Hair Solutions", "Dermatology", "456 Wellness Blvd", "Los Angeles", true),
    Clinic("3", "Crown & Glory Medical", "PRP Therapy", "789 Health Park Ave", "Chicago", true),
    Clinic("4", "Follicle First Clinic", "Trichology", "321 Care Center Ln", "Houston", false),
    Clinic("5", "Advanced Hair Lab", "Hair Transplant", "654 Innovation Way", "Miami", true),
    Clinic("6", "Scalp Health Institute", "Dermatology", "987 University Pkwy", "San Francisco", false)
  ]

  const ALL: string := "All"

  const SPECIALTIES: seq<string> := [ALL, "Hair Transplant", "Dermatology", "PRP Therapy", "Trichology"]

  /** The search box and the two selections. */
  datatype Query = Query(search: string, specialty: string, city: string)

  /** Clear filters, and the page's first state. */
  const CLEARED: Query := Query("", ALL, ALL)

  /** The search matches when it is empty or occurs, ignoring case, in the
      clinic's name or address. */
  predicate SearchMatches(c: Clinic, search: string)
  {
    search == "" || Contains(Lower(c.name), Lower(search)) || Contains(Lower(c.location), Lower(search))
  }

  predicate Matches(q: Query, c: Clinic)
  {
    (q.specialty == ALL || c.specialty == q.specialty)
    && (q.city == ALL || c.city == q.city)
    && SearchMatches(c, q.search)
  }

  function MatchesQuery(q: Query): Clinic -> bool
  {
    c => Matches(q, c)
  }

  /** `filtered`. */
  function Filtered(clinics: seq<Clinic>, q: Query): seq<Clinic>
  {
    Filter(clinics, MatchesQuery(q))
  }

  /** A clinic is listed exactly when it matches both selections and the search. */
  lemma FilteredMembers(clinics: seq<Clinic>, q: Query, k: nat)
    requires k < |clinics|
    ensures clinics[k] in Filtered(clinics, q) <==> Matches(q, clinics[k])
  {
    var r := Filtered(clinics, q);
    if clinics[k] in r {
      var j :| 0 <= j < |r| && r[j] == clinics[k];
      assert MatchesQuery(q)(r[j]);
    }
  }

  /** The list keeps the clinics' order; cleared filters show all six clinics. */
  lemma FilteredOrder(q: Query)
    ensures Subsequence(Filtered(CLINICS, q), CLINICS)
    ensures Filtered(CLINICS, CLEARED) == CLINICS && |Filtered(CLINICS, CLEARED)| == 6
  {
    FilterIsSubsequence(CLINICS, MatchesQuery(q));
    FilterKeepsAll(CLINICS, MatchesQuery(CLEARED));
  }

  /** Searches that differ only in letter case list the same clinics. */
  lemma SearchIgnoresCase(clinics: seq<Clinic>, q: Query, search: string)
    requires Lower(search) == Lower(q.search)
    ensures Filtered(clinics, q.(search := search)) == Filtered(clinics, q)
  {
    assert search == "" <==> q.search == "" by {
      assert |Lower(search)| == |search| && |Lower(q.search)| == |q.search|;
    }
    FilterCongruent(clinics, MatchesQuery(q.(search := search)), MatchesQuery(q));
  }

  /** The search is monotone: every clinic found by a longer search is found by
      any search it contains. */
  lemma LongerSearchFindsLess(c: Clinic, s: string, t: string)
    requires Contains(t, s) && SearchMatches(c, t)
    ensures SearchMatches(c, s)
  {
    if s != "" {
      LowerKeepsContains(t, s);
      if Contains(Lower(c.name), Lower(t)) {
        ContainsTransitive(Lower(c.name), Lower(t), Lower(s));
      } else {
        ContainsTransitive(Lower(c.location), Lower(t), Lower(s));
      }
    }
  }

  lemma LongerSearchListsLess(clinics: seq<Clinic>, q: Query, t: string)
    requires Contains(t, q.search)
    ensures Subsequence(Filtered(clinics, q.(search := t)), Filtered(clinics, q))
  {
    forall k | 0 <= k < |clinics|
      ensures MatchesQuery(q.(search := t))(clinics[k]) ==> MatchesQuery(q)(clinics[k])
    {
      if Matches(q.(search := t), clinics[k]) {
        LongerSearchFindsLess(clinics[k], q.search, t);
      }
    }
    FilterMonotone(clinics, MatchesQuery(q.(search := t)), MatchesQuery(q));
  }

  /** Every clinic's specialty is offered in the drop-down. */
  lemma SpecialtiesCoverClinics()
    ensures forall k :: 0 <= k < |CLINICS| ==> CLINICS[k].specialty in SPECIALTIES
  {
  }

  // ---------------------------------------------------------------- cities

  /** `Array.from(new Set(xs))`: each value once, at its first occurrence. */
  function Dedup(xs: seq<string>): (d: seq<string>)
    ensures forall i, j :: 0 <= i < j < |d| ==> d[i] != d[j]
    ensures forall x :: x in d <==> x in xs
    decreases |xs|
  {
    if xs == [] then []
    else
      var d := Dedup(xs[..|xs| - 1]);
      var x := xs[|xs| - 1];
      assert forall y :: y in xs <==> y in xs[..|xs| - 1] || y == x by {
        assert xs == xs[..|xs| - 1] + [x];
      }
      if x in d then d else d + [x]
  }

  /** The position where `x` first occurs. */
  function FirstIndex(xs: seq<string>, x: string): (i: nat)
    requires x in xs
    ensures i < |xs| && xs[i] == x && x !in xs[..i]
  {
    if xs[0] == x then 0 else
      var j := FirstIndex(xs[1..], x);
      assert xs[1..][..j] == xs[1..j + 1];
      j + 1
  }

  lemma {:induction false} FirstIndexSnoc(xs: seq<string>, y: string, x: string)
    requires x in xs
    ensures FirstIndex(xs + [y], x) == FirstIndex(xs, x)
    decreases |xs|
  {
    if xs[0] != x {
      assert (xs + [y])[1..] == xs[1..] + [y];
      FirstIndexSnoc(xs[1..], y, x);
    }
  }

  /** The values come in the order of their first occurrence. */
  lemma {:induction false} DedupFirstOccurrence(xs: seq<string>)
    ensures forall i, j :: 0 <= i < j < |Dedup(xs)| ==> FirstIndex(xs, Dedup(xs)[i]) < FirstIndex(xs, Dedup(xs)[j])
    decreases |xs|
  {
    if xs != [] {
      var init := xs[..|xs| - 1];
      var x := xs[|xs| - 1];
      assert xs == init + [x];
      DedupFirstOccurrence(init);
      var d0 := Dedup(init);
      var d := Dedup(xs);
      assert d == d0 || (d == d0 + [x] && x !in init);
      forall i, j | 0 <= i < j < |d|
        ensures FirstIndex(xs, d[i]) < FirstIndex(xs, d[j])
      {
        assert d[i] == d0[i] && d0[i] in init;
        FirstIndexSnoc(init, x, d[i]);
        if j < |d0| {
          assert d[j] == d0[j] && d0[j] in init;
          FirstIndexSnoc(init, x, d[j]);
          assert FirstIndex(init, d0[i]) < FirstIndex(init, d0[j]);
        } else {
          assert d[j] == x && x !in init;
          assert FirstIndex(xs, x) == |init| by {
            assert xs[..|init|] == init;
          }
        }
      }
    }
  }

  function Cities(clinics: seq<Clinic>): (cs: seq<string>)
    ensures |cs| == |clinics|
    ensures forall k :: 0 <= k < |clinics| ==> cs[k] == clinics[k].city
  {
    if clinics == [] then [] else [clinics[0].city] + Cities(clinics[1..])
  }

  /** The city drop-down: "All", then each clinic city once. */
  function CityOptions(clinics: seq<Clinic>): seq<string>
  {
    [ALL] + Dedup(Cities(clinics))
  }

  /** The drop-down starts with "All" and offers each clinic city exactly
      once, in the order the clinics first name them. */
  lemma CityOptionsShape(clinics: seq<Clinic>)
    ensures var opts := CityOptions(clinics);
      && opts[0] == ALL
      && (forall k :: 0 <= k < |clinics| ==> clinics[k].city in opts[1..])
      && (forall c :: c in opts[1..] ==> c in Cities(clinics))
      && (forall i, j :: 1 <= i < j < |opts| ==> opts[i] != opts[j])
      && (forall i, j :: 1 <= i < j < |opts| ==>
            FirstIndex(Cities(clinics), opts[i]) < FirstIndex(Cities(clinics), opts[j]))
  {
    var cs := Cities(clinics);
    var opts := CityOptions(clinics);
    var d := Dedup(cs);
    assert opts[1..] == d;
    DedupFirstOccurrence(cs);
    forall k | 0 <= k < |clinics|
      ensures clinics[k].city in opts[1..]
    {
      assert cs[k] in cs;
    }
    forall i, j | 1 <= i < j < |opts|
      ensures opts[i] != opts[j] && FirstIndex(cs, opts[i]) < FirstIndex(cs, opts[j])
    {
      assert opts[i] == d[i - 1] && opts[j] == d[j - 1];
      assert FirstIndex(cs, d[i - 1]) < FirstIndex(cs, d[j - 1]);
    }
  }

  /** A list without repeats is its own de-duplication. */
  lemma {:induction false} DedupDistinct(xs: seq<string>)
    requires forall i, j :: 0 <= i < j < |xs| ==> xs[i] != xs[j]
    ensures Dedup(xs) == xs
    decreases |xs|
  {
    if xs != [] {
      var init := xs[..|xs| - 1];
      DedupDistinct(init);
      assert xs[|xs| - 1] !in init;
      assert init + [xs[|xs| - 1]] == xs;
    }
  }

  /** `CITIES`: the page's city drop-down. */
  const CITIES: seq<string> := CityOptions(CLINICS)

  const CLINIC_CITIES: seq<string> := ["New York", "Los Angeles", "Chicago", "Houston", "Miami", "San Francisco"]

  /** The clinics' cities, in clinic order. */
  lemma ClinicCities()
    ensures Cities(CLINICS) == CLINIC_CITIES
  {
    var cs := Cities(CLINICS);
    assert cs[0] == "New York" && cs[1] == "Los Angeles" && cs[2] == "Chicago";
    assert cs[3] == "Houston" && cs[4] == "Miami" && cs[5] == "San Francisco";
  }

  /** No two clinics share a city: the names already differ in their first letter. */
  lemma ClinicCitiesDistinct()
    ensures forall i, j :: 0 <= i < j < |CLINIC_CITIES| ==> CLINIC_CITIES[i] != CLINIC_CITIES[j]
  {
    forall i, j | 0 <= i < j < |CLINIC_CITIES|
      ensures CLINIC_CITIES[i] != CLINIC_CITIES[j]
    {
      assert CLINIC_CITIES[i][0] != CLINIC_CITIES[j][0];
    }
  }

  /** The six clinics are in six different cities, all of them offered after "All". */
  lemma CitiesOffered()
    ensures CITIES == [ALL] + CLINIC_CITIES
  {
    ClinicCities();
    ClinicCitiesDistinct();
    DedupDistinct(CLINIC_CITIES);
  }
}
