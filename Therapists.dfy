/** The therapist directory: a list filtered by location, specialty and
    session type, and the de-duplicated list of every specialty offered.
    A therapist is reduced to the fields these rules read. */
module Therapists {
  import opened Common

  datatype Therapist = Therapist(id: string, name: string, specialties: seq<string>, location: string,
                                 sessionTypes: seq<string>)

  /** The filter inputs; an empty string means "any". `priceRange` is held but never read. */
  datatype Filters = Filters(location: string, specialty: string, sessionType: string, priceRange: string)

  const NoFilters := Filters("", "", "", "")

  /** The predicate behind `filteredTherapists`. */
  predicate Keep(t: Therapist, location: string, specialty: string, sessionType: string) {
    && (location == "" || ContainsIgnoringCase(t.location, location))
    && (specialty == "" || specialty in t.specialties)
    && (sessionType == "" || sessionType in t.sessionTypes)
  }

  /** `filteredTherapists`: an order-preserving selection of exactly the therapists every
      non-empty filter accepts. */
  function FilterTherapists(ts: seq<Therapist>, f: Filters): (r: seq<Therapist>)
    ensures IsSubsequence(r, ts)
    ensures forall t :: t in r <==>
      && t in ts
      && (f.location != "" ==> ContainsIgnoringCase(t.location, f.location))
      && (f.specialty != "" ==> f.specialty in t.specialties)
      && (f.sessionType != "" ==> f.sessionType in t.sessionTypes)
  {
    var location, specialty, sessionType := f.location, f.specialty, f.sessionType;
    Filter(ts, t => Keep(t, location, specialty, sessionType))
  }

  /** The price range never changes the result. */
  lemma PriceRangeIgnored(ts: seq<Therapist>, f: Filters, price: string)
    ensures FilterTherapists(ts, f.(priceRange := price)) == FilterTherapists(ts, f)
  {
  }

  /** With every filter empty, the whole list is shown. */
  lemma NoFiltersKeepAll(ts: seq<Therapist>)
    ensures FilterTherapists(ts, NoFilters) == ts
  {
    FilterKeepsAll(ts, t => Keep(t, "", "", ""));
  }

  // ------------------------------------------------------------- specialties

  /** `therapists.flatMap(t => t.specialties)`. */
  function AllOffered(ts: seq<Therapist>): (r: seq<string>)
    ensures forall x :: x in r <==> exists t :: t in ts && x in t.specialties
  {
    if ts == [] then []
    else
      var rest := AllOffered(ts[1..]);
      assert forall t :: t in ts[1..] ==> t in ts;
      assert forall t :: t in ts ==> t == ts[0] || t in ts[1..];
      ts[0].specialties + rest
  }

  /** `[...new Set(s)]`: each element once, where it first occurs. */
  function Dedup(s: seq<string>): (r: seq<string>)
    ensures NoDuplicates(r)
    ensures forall x :: x in r <==> x in s
  {
    if s == [] then []
    else
      var d := Dedup(s[..|s| - 1]);
      var last := s[|s| - 1];
      assert s == s[..|s| - 1] + [last];
      if last in d then d else d + [last]
  }

  predicate IsPrefix(a: seq<string>, b: seq<string>) {
    |a| <= |b| && a == b[..|a|]
  }

  /** Adding more elements to a set never moves the ones already there: the
      specialties appear in the order of their first occurrence. */
  lemma {:induction false} DedupKeepsPrefix(s: seq<string>, t: seq<string>)
    ensures IsPrefix(Dedup(s), Dedup(s + t))
    decreases |t|
  {
    if t == [] {
      assert s + t == s;
    } else {
      var u := s + t[..|t| - 1];
      DedupKeepsPrefix(s, t[..|t| - 1]);
      assert (s + t)[..|s + t| - 1] == u;
      var d, e := Dedup(u), Dedup(s + t);
      assert IsPrefix(d, e);
      assert Dedup(s) == e[..|Dedup(s)|] by {
        assert Dedup(s) == d[..|Dedup(s)|];
        assert d == e[..|d|];
      }
    }
  }

  /** `allSpecialties`: every offered specialty, once. */
  function AllSpecialties(ts: seq<Therapist>): (r: seq<string>)
    ensures NoDuplicates(r)
    ensures forall x :: x in r <==> exists t :: t in ts && x in t.specialties
  {
    Dedup(AllOffered(ts))
  }
}
