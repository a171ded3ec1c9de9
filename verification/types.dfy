/** The entities of src/types/index.ts: users, roles, cases and case statuses, together with
    the shapes a case takes on its way through the views (stored document, listed row,
    clerk form). */
module Types {
  import opened Wrappers

  /** The closed set of roles. */
  datatype UserRole = Clerk | Police | Admin

  /** The text under which a role is stored in a user profile. */
  function RoleName(r: UserRole): string
  {
    match r
    case Clerk => "clerk"
    case Police => "police"
    case Admin => "admin"
  }

  /** Reads a stored role text back as a role; any other text is no role at all. */
  function ParseRole(s: string): (r: Option<UserRole>)
    ensures forall x: UserRole :: r == Some(x) <==> RoleName(x) == s
  {
    if s == "clerk" then Some(Clerk)
    else if s == "police" then Some(Police)
    else if s == "admin" then Some(Admin)
    else None
  }

  /** The closed set of case statuses. */
  datatype CaseStatus = Open | UnderInvestigation | InCourt | Closed

  function StatusName(s: CaseStatus): string
  {
    match s
    case Open => "Open"
    case UnderInvestigation => "Under Investigation"
    case InCourt => "In Court"
    case Closed => "Closed"
  }

  function ParseStatus(s: string): (r: Option<CaseStatus>)
    ensures forall x: CaseStatus :: r == Some(x) <==> StatusName(x) == s
  {
    if s == "Open" then Some(Open)
    else if s == "Under Investigation" then Some(UnderInvestigation)
    else if s == "In Court" then Some(InCourt)
    else if s == "Closed" then Some(Closed)
    else None
  }

  /** Distinct roles are stored under distinct names, and each name reads back as its role. */
  lemma RoleNamesRoundTrip(r: UserRole, q: UserRole)
    ensures ParseRole(RoleName(r)) == Some(r)
    ensures r != q ==> RoleName(r) != RoleName(q)
  {
  }

  lemma StatusNamesRoundTrip(s: CaseStatus, t: CaseStatus)
    ensures ParseStatus(StatusName(s)) == Some(s)
    ensures s != t ==> StatusName(s) != StatusName(t)
  {
  }

  /** A user profile as the views hold it. `role` is the stored text: the source casts it to a
      role without checking, so a text outside the three names can reach the views. */
  datatype User = User(id: string, username: string, role: string, fullName: string, email: string)

  /** The profile document written for a new account and read back at sign-in. */
  datatype ProfileDoc = ProfileDoc(uid: string, fullName: string, email: string, username: string, role: string)

  /** The content fields of a case document as stored: any of them may be missing. */
  datatype RawFields = RawFields(
    caseNo: Option<string>,
    name: Option<string>,
    age: Option<int>,
    address: Option<string>,
    fatherName: Option<string>,
    motherName: Option<string>,
    aadharNo: Option<string>,
    officerName: Option<string>,
    crimeType: Option<string>,
    crimeDetails: Option<string>,
    fingerDemographicDetails: Option<string>,
    courtJudgement: Option<string>,
    judgeName: Option<string>,
    status: Option<string>,
    photoBase64: Option<string>)

  const NoFields := RawFields(None, None, None, None, None, None, None, None, None, None, None, None, None, None, None)

  /** The content fields of a case with every field defined. The declared type of a case has
      no photo field, but the clerk view reads and writes one, so it is part of the model. */
  datatype CaseFields = CaseFields(
    caseNo: string,
    name: string,
    age: int,
    address: string,
    fatherName: string,
    motherName: string,
    aadharNo: string,
    officerName: string,
    crimeType: string,
    crimeDetails: string,
    fingerDemographicDetails: string,
    courtJudgement: string,
    judgeName: string,
    status: string,
    photoBase64: string)

  /** Every field of `f` as a present stored value. */
  function RawOf(f: CaseFields): RawFields
  {
    RawFields(Some(f.caseNo), Some(f.name), Some(f.age), Some(f.address), Some(f.fatherName),
              Some(f.motherName), Some(f.aadharNo), Some(f.officerName), Some(f.crimeType),
              Some(f.crimeDetails), Some(f.fingerDemographicDetails), Some(f.courtJudgement),
              Some(f.judgeName), Some(f.status), Some(f.photoBase64))
  }

  /** A fully defined case. Timestamps are milliseconds. */
  datatype Case = Case(id: string, fields: CaseFields, createdAt: int, updatedAt: int)

  /** A case document as the store returns it: its id and its possibly incomplete data. */
  datatype StoredCase = StoredCase(id: string, raw: RawFields, createdAt: Option<int>, updatedAt: Option<int>)

  /** A case row as the administrator and investigator views hold it: the stored data spread
      as it is, with only the two timestamps filled in. */
  datatype ListedCase = ListedCase(id: string, raw: RawFields, createdAt: int, updatedAt: int)

  /** The row built from a stored document; `now` is the read time used for a missing timestamp. */
  function ToListed(d: StoredCase, now: int): (c: ListedCase)
    ensures c.id == d.id && c.raw == d.raw
    ensures d.createdAt.Some? ==> c.createdAt == d.createdAt.value
    ensures d.updatedAt.Some? ==> c.updatedAt == d.updatedAt.value
  {
    ListedCase(d.id, d.raw,
               if d.createdAt.Some? then d.createdAt.value else now,
               if d.updatedAt.Some? then d.updatedAt.value else now)
  }

  /** The sentinel that asks the store to write its own current time. */
  datatype ServerTime = ServerTimestamp

  /** What the clerk view writes: the fields, a refreshed `updatedAt`, and `createdAt` only
      when the case is new. */
  datatype CasePayload = CasePayload(fields: CaseFields, updatedAt: ServerTime, createdAt: Option<ServerTime>)
}
