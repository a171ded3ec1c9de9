/** The administrator's view (src/components/AdminDashboard.tsx): the case list under a search
    box and five dialog filters, per-status counts, the clerk-name choices, role changes and
    account creation. */
module Admin {
  import opened Wrappers
  import opened Seqs
  import opened Text
  import opened Types
  import opened Backend
  import Police
  import Clerk

  /** The five dialog filters, as applied or as drafted in the dialog. Empty means unset. */
  datatype Filters = Filters(dateFrom: string, dateTo: string, clerk: string, aadharOrCase: string, pinCode: string)

  const NoFilters := Filters("", "", "", "", "")

  /** The local calendar: the first and the last millisecond of the day a date text names. */
  datatype Calendar = Calendar(dayStart: string -> int, dayEnd: string -> int)

  /** `String(c.officerName)`: a missing officer name reads as "undefined". */
  function OfficerText(officerName: Option<string>): string
  {
    if officerName.Some? then officerName.value else "undefined"
  }

  /** The search box; an empty term lets every row through. */
  predicate PassesSearch(c: ListedCase, term: string)
  {
    term == "" || Police.MatchesSearch(c, term)
  }

  /** The date range, inclusive, at whole-day granularity; each bound is skipped when empty. */
  predicate PassesDates(c: ListedCase, f: Filters, cal: Calendar)
  {
    && (f.dateFrom == "" || cal.dayStart(f.dateFrom) <= c.createdAt)
    && (f.dateTo == "" || c.createdAt <= cal.dayEnd(f.dateTo))
  }

  /** The clerk choice, compared exactly with the case's officer name. */
  predicate PassesClerk(c: ListedCase, f: Filters)
  {
    f.clerk == "" || OfficerText(c.raw.officerName) == f.clerk
  }

  /** The identity-number-or-case-number box, ignoring case on both fields. */
  predicate PassesIdentifier(c: ListedCase, f: Filters)
  {
    f.aadharOrCase == ""
    || Police.ContainsFolded(c.raw.aadharNo, f.aadharOrCase)
    || Police.ContainsFolded(c.raw.caseNo, f.aadharOrCase)
  }

  /** The postal-code box: a case-sensitive part of the address. */
  predicate PassesPinCode(c: ListedCase, f: Filters)
  {
    f.pinCode == "" || Police.ContainsExactly(c.raw.address, f.pinCode)
  }

  predicate Keep(c: ListedCase, term: string, f: Filters, cal: Calendar)
  {
    PassesSearch(c, term) && PassesDates(c, f, cal) && PassesClerk(c, f)
    && PassesIdentifier(c, f) && PassesPinCode(c, f)
  }

  /** `filteredCases`: the rows that pass every filter, in list order; with nothing set, the
      whole list. */
  function FilterCases(cases: seq<ListedCase>, term: string, f: Filters, cal: Calendar): (r: seq<ListedCase>)
    ensures Subseq(r, cases)
    ensures forall c :: c in r <==> c in cases && Keep(c, term, f, cal)
    ensures forall c :: multiset(r)[c] == if Keep(c, term, f, cal) then multiset(cases)[c] else 0
    ensures term == "" && f == NoFilters ==> r == cases
  {
    var keep := c => Keep(c, term, f, cal);
    FilterIsSubseq(cases, keep);
    if term == "" && f == NoFilters then
      FilterKeepsAll(cases, keep);
      Filter(cases, keep)
    else
      Filter(cases, keep)
  }

  /** `g` sets no filter that `f` does not set with the same value. */
  predicate Relaxes(g: Filters, f: Filters)
  {
    && (g.dateFrom == "" || g.dateFrom == f.dateFrom)
    && (g.dateTo == "" || g.dateTo == f.dateTo)
    && (g.clerk == "" || g.clerk == f.clerk)
    && (g.aadharOrCase == "" || g.aadharOrCase == f.aadharOrCase)
    && (g.pinCode == "" || g.pinCode == f.pinCode)
  }

  /** Clearing filters only widens the list: every row shown under the stricter filters is
      still shown, in the same order. */
  lemma {:induction false} ClearingFiltersWidens(cases: seq<ListedCase>, term: string, f: Filters,
                                                 term': string, g: Filters, cal: Calendar)
    requires term' == "" || term' == term
    requires Relaxes(g, f)
    ensures Subseq(FilterCases(cases, term, f, cal), FilterCases(cases, term', g, cal))
  {
    FilterMonotone(cases, c => Keep(c, term, f, cal), c => Keep(c, term', g, cal));
  }

  /** The day range is inclusive at both ends: with both bounds on day `d`, a row passes
      exactly when it was created between the first and the last millisecond of `d`. */
  lemma DateRangeInclusive(cases: seq<ListedCase>, d: string, cal: Calendar, c: ListedCase)
    requires d != "" && c in cases
    ensures var f := NoFilters.(dateFrom := d, dateTo := d);
            c in FilterCases(cases, "", f, cal) <==> cal.dayStart(d) <= c.createdAt <= cal.dayEnd(d)
  {
  }

  /** The same row with each missing text field the filters read replaced by the empty text,
      except the officer name. */
  function Blanked(c: ListedCase): ListedCase
  {
    var blank := (o: Option<string>) => if o.Some? then o else Some("");
    c.(raw := c.raw.(caseNo := blank(c.raw.caseNo), name := blank(c.raw.name),
                     aadharNo := blank(c.raw.aadharNo), crimeType := blank(c.raw.crimeType),
                     address := blank(c.raw.address)))
  }

  /** A missing text field filters like an empty one, because a non-empty term is never part
      of the empty text. The officer name is the exception (see `MissingOfficerIsUndefined`). */
  lemma {:induction false} MissingFieldsFilterAsEmpty(c: ListedCase, term: string, f: Filters, cal: Calendar)
    ensures Keep(c, term, f, cal) <==> Keep(Blanked(c), term, f, cal)
  {
    EmptyContainsNoTerm(term);
    EmptyContainsNoTerm(Lower(term));
    EmptyContainsNoTerm(f.aadharOrCase);
    EmptyContainsNoTerm(Lower(f.aadharOrCase));
    EmptyContainsNoTerm(f.pinCode);
    assert Lower("") == "";
  }

  lemma EmptyContainsNoTerm(term: string)
    ensures term != "" ==> !Contains("", term) && Lower(term) != ""
  {
    assert |Lower(term)| == |term|;
  }

  /** A row without an officer name is kept by the clerk choice "undefined", while a row with
      an empty officer name is not. */
  lemma MissingOfficerIsUndefined(c: ListedCase, cal: Calendar)
    ensures var f := NoFilters.(clerk := "undefined");
            && Keep(c.(raw := c.raw.(officerName := None)), "", f, cal)
            && !Keep(c.(raw := c.raw.(officerName := Some(""))), "", f, cal)
  {
  }

  /** The search box matches the identity number as typed, the identifier box ignores case:
      "AB" finds no row whose only match is identity number "ab12", but the identifier box
      with "AB" keeps it. */
  lemma IdentityNumberCaseSensitivity(cal: Calendar)
    ensures var c := ListedCase("1", NoFields.(aadharNo := Some("ab12")), 0, 0);
            && !Keep(c, "AB", NoFilters, cal)
            && Keep(c, "", NoFilters.(aadharOrCase := "AB"), cal)
  {
    Police.IdentityNumberIsCaseSensitive();
    assert Lower("AB") == "ab" && Lower("ab12") == "ab12";
    assert "ab" <= "ab12";
  }

  /** `fullName || username`: the name a user is listed under. */
  function DisplayName(u: User): string
  {
    if u.fullName != "" then u.fullName else u.username
  }

  /** A non-empty listed name of some clerk. */
  ghost predicate IsClerkName(users: seq<User>, n: string)
  {
    n != "" && exists u :: u in users && u.role == "clerk" && DisplayName(u) == n
  }

  /** `users.filter(clerk).map(fullName || username).filter(Boolean)`. */
  function ClerkNames(users: seq<User>): (names: seq<string>)
    ensures forall n :: n in names <==> IsClerkName(users, n)
  {
    if users == [] then []
    else
      assert users == [users[0]] + users[1..];
      var u := users[0];
      (if u.role == "clerk" && DisplayName(u) != "" then [DisplayName(u)] else []) + ClerkNames(users[1..])
  }

  /** `uniqueClerks`: every non-empty clerk name, once, in ascending order. */
  function UniqueClerks(users: seq<User>): (r: seq<string>)
    ensures StrictlySorted(r) && NoDuplicates(r)
    ensures forall n :: n in r <==> IsClerkName(users, n)
  {
    var r := SortStrings(Dedup(ClerkNames(users)));
    StrictlySortedHasNoDuplicates(r);
    r
  }

  /** The choice list is determined by the set of clerk names alone: any strictly ascending
      list of exactly those names is it. */
  lemma UniqueClerksDeterminedBySet(users: seq<User>, names: seq<string>)
    requires StrictlySorted(names)
    requires forall n :: n in names <==> IsClerkName(users, n)
    ensures names == UniqueClerks(users)
  {
    StrictlySortedUnique(names, UniqueClerks(users));
  }

  /** The number of rows whose stored status is exactly `status`. */
  function CountStatus(cases: seq<ListedCase>, status: string): (n: nat)
    ensures n <= |cases|
  {
    if cases == [] then 0
    else (if cases[0].raw.status == Some(status) then 1 else 0) + CountStatus(cases[1..], status)
  }

  /** The count is the length of `cases.filter(c => c.status === status)`. */
  lemma {:induction false} CountStatusIsFilterLength(cases: seq<ListedCase>, status: string)
    ensures CountStatus(cases, status) == |Filter(cases, (c: ListedCase) => c.raw.status == Some(status))|
  {
    if cases != [] {
      CountStatusIsFilterLength(cases[1..], status);
    }
  }

  /** Whether a row's stored status is one of the four. */
  predicate HasKnownStatus(c: ListedCase)
  {
    c.raw.status.Some? && ParseStatus(c.raw.status.value).Some?
  }

  /** The number of rows whose status is missing or outside the four. */
  function CountUnknownStatus(cases: seq<ListedCase>): (n: nat)
  {
    if cases == [] then 0
    else (if HasKnownStatus(cases[0]) then 0 else 1) + CountUnknownStatus(cases[1..])
  }

  datatype Stats = Stats(totalCases: nat, openCases: nat, underInvestigation: nat, inCourt: nat,
                         closedCases: nat, totalUsers: nat)

  /** `stats`. */
  function ComputeStats(cases: seq<ListedCase>, users: seq<User>): (s: Stats)
    ensures s.totalCases == |cases| && s.totalUsers == |users|
    ensures s.openCases == CountStatus(cases, "Open")
    ensures s.underInvestigation == CountStatus(cases, "Under Investigation")
    ensures s.inCourt == CountStatus(cases, "In Court")
    ensures s.closedCases == CountStatus(cases, "Closed")
    ensures s.openCases + s.underInvestigation + s.inCourt + s.closedCases <= s.totalCases
  {
    StatusCountsPartition(cases);
    Stats(|cases|, CountStatus(cases, "Open"), CountStatus(cases, "Under Investigation"),
          CountStatus(cases, "In Court"), CountStatus(cases, "Closed"), |users|)
  }

  /** The four status counts and the rows with any other status add up to the whole list. */
  lemma {:induction false} StatusCountsPartition(cases: seq<ListedCase>)
    ensures CountStatus(cases, "Open") + CountStatus(cases, "Under Investigation")
            + CountStatus(cases, "In Court") + CountStatus(cases, "Closed")
            + CountUnknownStatus(cases) == |cases|
  {
    if cases != [] {
      StatusCountsPartition(cases[1..]);
    }
  }

  lemma {:induction false} CountStatusAppend(a: seq<ListedCase>, b: seq<ListedCase>, status: string)
    ensures CountStatus(a + b, status) == CountStatus(a, status) + CountStatus(b, status)
  {
    if a != [] {
      assert (a + b)[1..] == a[1..] + b;
      CountStatusAppend(a[1..], b, status);
    } else {
      assert a + b == b;
    }
  }

  /** A case the clerk creates with status "Open" (or none, which defaults to "Open") shows up,
      wherever the next read places it, as one more case and one more open case. */
  lemma {:induction false} CreatedOpenCaseCounted(form: Clerk.FormData, id: string, stamp: int, now: int,
                                                  before: seq<ListedCase>, after: seq<ListedCase>, users: seq<User>)
    requires Clerk.Falsy(form.raw.status) || form.raw.status == Some("Open")
    ensures var payload := Clerk.SubmitRequest(form, None).payload;
            var row := ToListed(StoredCase(id, RawOf(payload.fields), Some(stamp), Some(stamp)), now);
            var s, s' := ComputeStats(before + after, users), ComputeStats(before + [row] + after, users);
            && s'.totalCases == s.totalCases + 1
            && s'.openCases == s.openCases + 1
            && s'.underInvestigation == s.underInvestigation
            && s'.inCourt == s.inCourt
            && s'.closedCases == s.closedCases
  {
    var payload := Clerk.SubmitRequest(form, None).payload;
    var row := ToListed(StoredCase(id, RawOf(payload.fields), Some(stamp), Some(stamp)), now);
    assert row.raw.status == Some("Open");
    var statuses := ["Open", "Under Investigation", "In Court", "Closed"];
    forall st | st in statuses
      ensures CountStatus(before + [row] + after, st)
              == CountStatus(before + after, st) + (if st == "Open" then 1 else 0)
    {
      CountStatusAppend(before + [row], after, st);
      CountStatusAppend(before, [row], st);
      CountStatusAppend(before, after, st);
    }
  }

  /** `users.map(x => x.id === uid ? { ...x, role } : x)`. */
  function SetRole(users: seq<User>, uid: string, role: UserRole): (r: seq<User>)
    ensures |r| == |users|
    ensures forall i :: 0 <= i < |users| && users[i].id != uid ==> r[i] == users[i]
    ensures forall i :: 0 <= i < |users| && users[i].id == uid ==> r[i] == users[i].(role := RoleName(role))
  {
    if users == [] then []
    else
      var u := users[0];
      [if u.id == uid then u.(role := RoleName(role)) else u] + SetRole(users[1..], uid, role)
  }

  /** Changing a role twice is changing it once. */
  lemma SetRoleIdempotent(users: seq<User>, uid: string, role: UserRole)
    ensures SetRole(SetRole(users, uid, role), uid, role) == SetRole(users, uid, role)
  {
  }

  /** Setting a user's role to the one it already has leaves the list as it was. */
  lemma SetCurrentRoleIsNoOp(users: seq<User>, uid: string, role: UserRole)
    requires forall i :: 0 <= i < |users| && users[i].id == uid ==> users[i].role == RoleName(role)
    ensures SetRole(users, uid, role) == users
  {
  }

  const FillAllFieldsMessage := "Please fill all fields."
  const ShortPasswordMessage := "Password must be at least 6 characters."
  const EmailInUseMessage := "Email already in use."

  /** The add-user checks, in order: any empty field first, then the password length. */
  function NewUserProblem(email: string, password: string, fullName: string): (problem: Option<string>)
    ensures email == "" || password == "" || fullName == "" ==> problem == Some(FillAllFieldsMessage)
    ensures email != "" && password != "" && fullName != "" && |password| < 6 ==> problem == Some(ShortPasswordMessage)
    ensures problem.None? <==> email != "" && fullName != "" && |password| >= 6
  {
    if email == "" || password == "" || fullName == "" then Some(FillAllFieldsMessage)
    else if |password| < 6 then Some(ShortPasswordMessage)
    else None
  }

  /** The add-user error for a failed service call. */
  function AddUserErrorMessage(e: ServiceError): (msg: string)
    ensures e.code == "auth/email-already-in-use" ==> msg == EmailInUseMessage
    ensures e.code != "auth/email-already-in-use" ==> msg == e.message
  {
    if e.code == "auth/email-already-in-use" then EmailInUseMessage else e.message
  }

  /** The profile written for a new account: the email is also its username. */
  function NewProfile(uid: string, fullName: string, email: string, role: UserRole): (p: ProfileDoc)
    ensures p.uid == uid && p.fullName == fullName
    ensures p.username == email && p.email == email && ParseRole(p.role) == Some(role)
  {
    ProfileDoc(uid, fullName, email, email, RoleName(role))
  }

  /** `getRoleBadgeColor`: a colour per role, gray for any other text. */
  function RoleBadgeColor(role: string): (color: string)
    ensures ParseRole(role).None? <==> color == "bg-gray-500"
  {
    match role
    case "admin" => "bg-purple-500"
    case "clerk" => "bg-blue-500"
    case "police" => "bg-green-500"
    case _ => "bg-gray-500"
  }

  /** The view's state. `applied` holds the filters in force, `draft` the filter dialog's
      copy of them. */
  class AdminDashboard {
    var cases: seq<ListedCase>
    var users: seq<User>
    var selectedCase: Option<ListedCase>
    var isViewDialogOpen: bool
    var isAddUserDialogOpen: bool
    var loading: bool
    var searchTerm: string
    var applied: Filters
    var isFilterDialogOpen: bool
    var draft: Filters
    var newUserEmail: string
    var newUserPassword: string
    var newUserFullName: string
    var newUserRole: UserRole
    var addUserError: string
    var addUserLoading: bool

    constructor ()
      ensures cases == [] && users == [] && selectedCase == None && loading
      ensures !isViewDialogOpen && !isAddUserDialogOpen && !isFilterDialogOpen
      ensures searchTerm == "" && applied == NoFilters && draft == NoFilters
      ensures newUserEmail == "" && newUserPassword == "" && newUserFullName == ""
      ensures newUserRole == Police && addUserError == "" && !addUserLoading
    {
      cases, users, selectedCase := [], [], None;
      isViewDialogOpen, isAddUserDialogOpen, loading := false, false, true;
      searchTerm, applied, isFilterDialogOpen, draft := "", NoFilters, false, NoFilters;
      newUserEmail, newUserPassword, newUserFullName, newUserRole := "", "", "", Police;
      addUserError, addUserLoading := "", false;
    }

    /** `loadData`: reads the cases, then the users; a failed read stops there and keeps what
        is not yet replaced. Loading ends either way. */
    method LoadData(casesRead: Option<seq<StoredCase>>, usersRead: Option<seq<User>>, now: int)
      returns (requests: seq<Request>)
      modifies this`cases, this`users, this`loading
      ensures requests == [ReadCases] + (if casesRead.Some? then [ReadUsers] else [])
      ensures !loading
      ensures casesRead.None? ==> cases == old(cases)
      ensures casesRead.Some? ==> |cases| == |casesRead.value|
                                  && forall i :: 0 <= i < |cases| ==> cases[i] == ToListed(casesRead.value[i], now)
      ensures users == if casesRead.Some? && usersRead.Some? then usersRead.value else old(users)
    {
      requests := [ReadCases];
      if casesRead.Some? {
        var docs := casesRead.value;
        cases := seq(|docs|, i requires 0 <= i < |docs| => ToListed(docs[i], now));
        requests := requests + [ReadUsers];
        if usersRead.Some? {
          users := usersRead.value;
        }
      }
      loading := false;
    }

    /** `openFilterDialog`: the draft starts as a copy of the applied filters. */
    method OpenFilterDialog()
      modifies this`draft, this`isFilterDialogOpen
      ensures draft == applied && isFilterDialogOpen
    {
      draft := applied;
      isFilterDialogOpen := true;
    }

    /** `handleApplyFilters`: the draft becomes the applied filters and the dialog closes. */
    method ApplyFilters()
      modifies this`applied, this`isFilterDialogOpen
      ensures applied == draft && !isFilterDialogOpen
    {
      applied := draft;
      isFilterDialogOpen := false;
    }

    /** `clearFilters`: empties the draft only; nothing is applied until the user applies it. */
    method ClearFilters()
      modifies this`draft
      ensures draft == NoFilters
    {
      draft := NoFilters;
    }

    /** `handleClearGlobalFilters`: empties the applied filters; the search box stays. */
    method ClearGlobalFilters()
      modifies this`applied
      ensures applied == NoFilters
    {
      applied := NoFilters;
    }

    /** The clerk picker: its "all" entry stands for no choice. */
    method ChooseClerk(choice: string)
      modifies this`draft
      ensures draft == old(draft).(clerk := if choice == "all" then "" else choice)
    {
      draft := draft.(clerk := if choice == "all" then "" else choice);
    }

    /** The add-user dialog's Cancel button: closes the dialog, clears the error and empties
        the form, with the role back to police. */
    method CancelAddUser()
      modifies this`isAddUserDialogOpen, this`addUserError, this`newUserEmail, this`newUserPassword,
               this`newUserFullName, this`newUserRole
      ensures !isAddUserDialogOpen && addUserError == ""
      ensures newUserEmail == "" && newUserPassword == "" && newUserFullName == "" && newUserRole == Police
    {
      isAddUserDialogOpen := false;
      addUserError := "";
      newUserEmail, newUserPassword, newUserFullName, newUserRole := "", "", "", Police;
    }

    /** `handleViewCase`. */
    method ViewCase(c: ListedCase)
      modifies this`selectedCase, this`isViewDialogOpen
      ensures selectedCase == Some(c) && isViewDialogOpen
    {
      selectedCase := Some(c);
      isViewDialogOpen := true;
    }

    /** `handleRoleChange`: the role write is always sent; only when it succeeds does the local
        list take the new role. */
    method RoleChange(uid: string, role: UserRole, failure: Option<ServiceError>) returns (request: Request)
      modifies this`users
      ensures request == UpdateRole(uid, RoleName(role))
      ensures users == if failure.None? then SetRole(old(users), uid, role) else old(users)
    {
      request := UpdateRole(uid, RoleName(role));
      if failure.None? {
        users := SetRole(users, uid, role);
      }
    }

    /** `handleAddUser`. A form that fails the checks sends nothing. Otherwise the credential is
        created, then the profile written, then everything reloaded; the form is reset and the
        dialog closed only when all of that succeeded, and a failure keeps the form as typed. */
    method AddUser(credential: Result<string, ServiceError>, profileWrite: Option<ServiceError>,
                   casesRead: Option<seq<StoredCase>>, usersRead: Option<seq<User>>, now: int)
      returns (requests: seq<Request>)
      modifies this`addUserError, this`addUserLoading, this`newUserEmail, this`newUserPassword,
               this`newUserFullName, this`newUserRole, this`isAddUserDialogOpen,
               this`cases, this`users, this`loading
      ensures var problem := NewUserProblem(old(newUserEmail), old(newUserPassword), old(newUserFullName));
              problem.Some? ==>
                && requests == [] && addUserError == problem.value
                && addUserLoading == old(addUserLoading)
                && newUserEmail == old(newUserEmail) && newUserPassword == old(newUserPassword)
                && newUserFullName == old(newUserFullName) && newUserRole == old(newUserRole)
                && isAddUserDialogOpen == old(isAddUserDialogOpen)
                && cases == old(cases) && users == old(users) && loading == old(loading)
      ensures var problem := NewUserProblem(old(newUserEmail), old(newUserPassword), old(newUserFullName));
              problem.None? ==>
                && !addUserLoading
                && |requests| >= 1 && requests[0] == CreateCredential(old(newUserEmail), old(newUserPassword))
      ensures var problem := NewUserProblem(old(newUserEmail), old(newUserPassword), old(newUserFullName));
              var failure := if credential.Failure? then Some(credential.error) else profileWrite;
              problem.None? && failure.Some? ==>
                && addUserError == AddUserErrorMessage(failure.value)
                && newUserEmail == old(newUserEmail) && newUserPassword == old(newUserPassword)
                && newUserFullName == old(newUserFullName) && newUserRole == old(newUserRole)
                && isAddUserDialogOpen == old(isAddUserDialogOpen)
                && cases == old(cases) && users == old(users) && loading == old(loading)
      ensures var problem := NewUserProblem(old(newUserEmail), old(newUserPassword), old(newUserFullName));
              problem.None? && credential.Success? ==>
                |requests| >= 2 && requests[..2] == [CreateCredential(old(newUserEmail), old(newUserPassword)),
                                  WriteProfile(credential.value, NewProfile(credential.value, old(newUserFullName),
                                                                            old(newUserEmail), old(newUserRole)))]
      ensures var problem := NewUserProblem(old(newUserEmail), old(newUserPassword), old(newUserFullName));
              problem.None? && credential.Success? && profileWrite.None? ==>
                && addUserError == "" && !loading && !isAddUserDialogOpen
                && newUserEmail == "" && newUserPassword == "" && newUserFullName == ""
                && newUserRole == Police
                && requests[2..] == [ReadCases] + (if casesRead.Some? then [ReadUsers] else [])
      ensures var problem := NewUserProblem(old(newUserEmail), old(newUserPassword), old(newUserFullName));
              problem.None? && credential.Failure? ==>
                requests == [CreateCredential(old(newUserEmail), old(newUserPassword))]
      ensures var problem := NewUserProblem(old(newUserEmail), old(newUserPassword), old(newUserFullName));
              problem.None? && credential.Success? && profileWrite.Some? ==> |requests| == 2
      ensures var problem := NewUserProblem(old(newUserEmail), old(newUserPassword), old(newUserFullName));
              problem.None? && credential.Success? && profileWrite.None? ==>
                && (casesRead.None? ==> cases == old(cases))
                && (casesRead.Some? ==> |cases| == |casesRead.value|
                                        && forall i :: 0 <= i < |cases| ==> cases[i] == ToListed(casesRead.value[i], now))
                && users == (if casesRead.Some? && usersRead.Some? then usersRead.value else old(users))
    {
      var problem := NewUserProblem(newUserEmail, newUserPassword, newUserFullName);
      if problem.Some? {
        addUserError := problem.value;
        requests := [];
        return;
      }
      addUserError := "";
      addUserLoading := true;
      requests := [CreateCredential(newUserEmail, newUserPassword)];
      if credential.Failure? {
        addUserError := AddUserErrorMessage(credential.error);
      } else {
        var uid := credential.value;
        requests := requests + [WriteProfile(uid, NewProfile(uid, newUserFullName, newUserEmail, newUserRole))];
        if profileWrite.Some? {
          addUserError := AddUserErrorMessage(profileWrite.value);
        } else {
          var loads := LoadData(casesRead, usersRead, now);
          requests := requests + loads;
          newUserEmail := "";
          newUserPassword := "";
          newUserFullName := "";
          newUserRole := Police;
          isAddUserDialogOpen := false;
        }
      }
      addUserLoading := false;
    }

    /** The rows currently shown. */
    function Shown(cal: Calendar): (r: seq<ListedCase>)
      reads this
      ensures Subseq(r, cases)
      ensures searchTerm == "" && applied == NoFilters ==> r == cases
    {
      FilterCases(cases, searchTerm, applied, cal)
    }
  }

  /** Opening the filter dialog and applying it at once leaves the applied filters, and so
      the shown rows, as they were. */
  method OpenThenApply(d: AdminDashboard, cal: Calendar)
    modifies d
    ensures d.applied == old(d.applied) && !d.isFilterDialogOpen
    ensures d.Shown(cal) == old(d.Shown(cal))
  {
    d.OpenFilterDialog();
    d.ApplyFilters();
  }
}
