/** The investigator's read-only view (src/components/PoliceDashboard.tsx): a one-shot case
    list, a four-field search, and a detail dialog. */
module Police {
  import opened Wrappers
  import opened Seqs
  import opened Text
  import opened Types
  import opened Backend

  /** `field?.toLowerCase().includes(term.toLowerCase())`: a missing field never matches. */
  predicate ContainsFolded(field: Option<string>, term: string)
  {
    field.Some? && Contains(Lower(field.value), Lower(term))
  }

  /** `field?.includes(term)`: case-sensitive, and a missing field never matches. */
  predicate ContainsExactly(field: Option<string>, term: string)
  {
    field.Some? && Contains(field.value, term)
  }

  /** The search shared by the investigator and administrator views: case number, name and
      crime type ignoring case, the identity number as typed. */
  predicate MatchesSearch(c: ListedCase, term: string)
  {
    || ContainsFolded(c.raw.caseNo, term)
    || ContainsFolded(c.raw.name, term)
    || ContainsExactly(c.raw.aadharNo, term)
    || ContainsFolded(c.raw.crimeType, term)
  }

  /** Whether a row has any of the four searched fields at all. */
  predicate HasSearchedField(c: ListedCase)
  {
    c.raw.caseNo.Some? || c.raw.name.Some? || c.raw.aadharNo.Some? || c.raw.crimeType.Some?
  }

  /** `filteredCases`: the rows the search keeps, in list order. With an empty term a row is
      kept exactly when one of its searched fields is present. */
  function SearchCases(cases: seq<ListedCase>, term: string): (r: seq<ListedCase>)
    ensures Subseq(r, cases)
    ensures forall c :: c in r <==> c in cases && MatchesSearch(c, term)
    ensures forall c :: multiset(r)[c] == if MatchesSearch(c, term) then multiset(cases)[c] else 0
    ensures term == "" ==> forall c :: c in r <==> c in cases && HasSearchedField(c)
  {
    var keep := c => MatchesSearch(c, term);
    FilterIsSubseq(cases, keep);
    if term == "" then
      EmptyTermMatchesPresentFields(cases);
      Filter(cases, keep)
    else
      Filter(cases, keep)
  }

  lemma EmptyTermMatchesPresentFields(cases: seq<ListedCase>)
    ensures forall c :: MatchesSearch(c, "") <==> HasSearchedField(c)
  {
    assert Lower("") == "";
    forall c: ListedCase
      ensures MatchesSearch(c, "") <==> HasSearchedField(c)
    {
      if c.raw.caseNo.Some? { assert [] <= Lower(c.raw.caseNo.value); }
      if c.raw.name.Some? { assert [] <= Lower(c.raw.name.value); }
      if c.raw.aadharNo.Some? { assert [] <= c.raw.aadharNo.value; }
      if c.raw.crimeType.Some? { assert [] <= Lower(c.raw.crimeType.value); }
    }
  }

  /** A list whose rows all carry a case number is shown in full when the term is empty. */
  lemma EmptyTermKeepsNumberedCases(cases: seq<ListedCase>)
    requires forall i :: 0 <= i < |cases| ==> cases[i].raw.caseNo.Some?
    ensures SearchCases(cases, "") == cases
  {
    EmptyTermMatchesPresentFields(cases);
    FilterKeepsAll(cases, c => MatchesSearch(c, ""));
  }

  /** The folded fields ignore the case of the term: a term and its lower-case form match the
      same rows once the identity number is set aside. */
  lemma {:induction false} FoldedFieldsIgnoreTermCase(c: ListedCase, term: string)
    requires c.raw.aadharNo.None?
    ensures MatchesSearch(c, term) <==> MatchesSearch(c, Lower(term))
  {
    LowerIdempotent(term);
  }

  /** The identity number is matched case-sensitively: "ab12" is found by "ab" and not by
      "AB", though the case-folded fields would treat the two terms alike. */
  lemma IdentityNumberIsCaseSensitive()
    ensures var c := ListedCase("1", NoFields.(aadharNo := Some("ab12")), 0, 0);
            MatchesSearch(c, "ab") && !MatchesSearch(c, "AB")
  {
    assert "ab" <= "ab12";
    MissingFirstCharNotContained("ab12", "AB");
  }

  /** The worked examples: "CR-2024" finds case "CR-2024-001", while "234567891234" does not
      find identity number "999999999999". */
  lemma SearchExamples()
    ensures MatchesSearch(ListedCase("1", NoFields.(caseNo := Some("CR-2024-001")), 0, 0), "CR-2024")
    ensures !MatchesSearch(ListedCase("2", NoFields.(aadharNo := Some("999999999999")), 0, 0), "234567891234")
  {
    var n := "CR-2024-001";
    assert Lower(n)[..7] == Lower("CR-2024");
    ContainsFromIndex(Lower(n), Lower("CR-2024"), 0);
    MissingFirstCharNotContained("999999999999", "234567891234");
  }

  /** `getStatusColor`: each of the four statuses has its own colour; anything else is gray. */
  function StatusColor(status: string): (color: string)
    ensures ParseStatus(status).None? <==> color == "bg-gray-500"
  {
    match status
    case "Open" => "bg-blue-500"
    case "Under Investigation" => "bg-yellow-500"
    case "In Court" => "bg-orange-500"
    case "Closed" => "bg-green-500"
    case _ => "bg-gray-500"
  }

  lemma StatusColorsDistinct(s: CaseStatus, t: CaseStatus)
    requires s != t
    ensures StatusColor(StatusName(s)) != StatusColor(StatusName(t))
  {
  }

  /** The view's state: the loaded rows, the search box, and the detail dialog. */
  class PoliceDashboard {
    var cases: seq<ListedCase>
    var searchTerm: string
    var selectedCase: Option<ListedCase>
    var isViewDialogOpen: bool
    var loading: bool

    constructor ()
      ensures cases == [] && searchTerm == "" && selectedCase == None
      ensures !isViewDialogOpen && loading
    {
      cases, searchTerm, selectedCase := [], "", None;
      isViewDialogOpen, loading := false, true;
    }

    /** `loadCases`: the rows of a successful read replace the list; a failed read (`None`)
        leaves it. Either way loading ends. */
    method LoadCases(read: Option<seq<StoredCase>>, now: int) returns (request: Request)
      modifies this`cases, this`loading
      ensures request == ReadCases && !loading
      ensures read.Some? ==> |cases| == |read.value|
      ensures read.Some? ==> forall i :: 0 <= i < |cases| ==> cases[i] == ToListed(read.value[i], now)
      ensures read.None? ==> cases == old(cases)
    {
      request := ReadCases;
      if read.Some? {
        var docs := read.value;
        cases := seq(|docs|, i requires 0 <= i < |docs| => ToListed(docs[i], now));
      }
      loading := false;
    }

    /** `handleViewCase`: selects the row and opens the dialog; nothing else changes. */
    method ViewCase(c: ListedCase)
      modifies this`selectedCase, this`isViewDialogOpen
      ensures selectedCase == Some(c) && isViewDialogOpen
    {
      selectedCase := Some(c);
      isViewDialogOpen := true;
    }

    /** The rows currently shown. */
    function Shown(): (r: seq<ListedCase>)
      reads this
      ensures Subseq(r, cases)
    {
      SearchCases(cases, searchTerm)
    }
  }
}
