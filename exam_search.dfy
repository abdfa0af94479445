/**
 * The search box of app/exams/page.tsx: an exam is shown when the lower-cased
 * search term occurs in its lower-cased name, eligibility or description, and
 * an empty result shows one of two hints.
 */
module ExamSearch {
  import opened Wrappers
  import opened Text
  import opened Lists

  datatype Exam = Exam(
    id: string, name: string, registrationDate: string, deadlineDate: string,
    registrationPortalLink: string, eligibility: string, description: string)

  /** The predicate passed to `exams.filter`. */
  predicate Matches(e: Exam, term: string) {
    var t := ToLower(term);
    Contains(ToLower(e.name), t) || Contains(ToLower(e.eligibility), t) || Contains(ToLower(e.description), t)
  }

  /** The list the search effect stores in `filteredExams`: the matching exams,
      in their original order. */
  function Filter(exams: seq<Exam>, term: string): (r: seq<Exam>)
    ensures IsSubsequence(r, exams)
    ensures forall i :: 0 <= i < |r| ==> Matches(r[i], term)
    ensures forall i :: 0 <= i < |exams| && Matches(exams[i], term) ==> exams[i] in r
    ensures forall x :: multiset(r)[x] == if Matches(x, term) then multiset(exams)[x] else 0
  {
    if exams == [] then []
    else
      assert exams == [exams[0]] + exams[1..];
      if Matches(exams[0], term) then [exams[0]] + Filter(exams[1..], term)
      else Filter(exams[1..], term)
  }

  /** An empty search term keeps every exam. */
  lemma {:induction false} EmptyTermKeepsAll(exams: seq<Exam>)
    ensures Filter(exams, "") == exams
  {
    if exams != [] {
      ContainsEmpty(ToLower(exams[0].name));
      EmptyTermKeepsAll(exams[1..]);
    }
  }

  /** The filter sees the term only through its lower-cased form. */
  lemma {:induction false} SameLowerSameResult(exams: seq<Exam>, t1: string, t2: string)
    requires ToLower(t1) == ToLower(t2)
    ensures Filter(exams, t1) == Filter(exams, t2)
  {
    if exams != [] {
      SameLowerSameResult(exams[1..], t1, t2);
    }
  }

  /** Typing the term in capitals does not change the result. */
  lemma CaseInsensitive(exams: seq<Exam>, term: string)
    ensures Filter(exams, ToUpper(term)) == Filter(exams, term)
  {
    LowerOfUpper(term);
    SameLowerSameResult(exams, ToUpper(term), term);
  }

  /** Filtering the filtered list again with the same term changes nothing. */
  lemma {:induction false} FilterIdempotent(exams: seq<Exam>, term: string)
    ensures Filter(Filter(exams, term), term) == Filter(exams, term)
  {
    if exams != [] {
      FilterIdempotent(exams[1..], term);
    }
  }

  /** The text under "No exams found", shown only when the filtered list is
      empty: a hint to adjust the search when a term was typed. */
  function EmptyHint(filtered: seq<Exam>, term: string): (r: Option<string>)
    ensures r.Some? <==> filtered == []
    ensures r == Some("Try adjusting your search terms") <==> filtered == [] && term != ""
  {
    if filtered != [] then None
    else if term != "" then Some("Try adjusting your search terms")
    else Some("No exams available")
  }

  /** With an empty term nothing is filtered away, so the "adjust your search"
      hint can only appear when the search, not the catalogue, emptied the list. */
  lemma HintBlamesSearch(exams: seq<Exam>, term: string)
    requires exams != []
    requires EmptyHint(Filter(exams, term), term).Some?
    ensures EmptyHint(Filter(exams, term), term) == Some("Try adjusting your search terms")
  {
    if term == "" {
      EmptyTermKeepsAll(exams);
    }
  }
}
