/** Session and identity resolution (src/AuthContext.tsx): each sign-in-state event from the
    authentication service is turned into the current user, or none, and ends loading. */
module Auth {
  import opened Wrappers
  import opened Types
  import opened Backend

  /** The signed-in credential an event carries; `email` is "" when the service has none. */
  datatype Credential = Credential(uid: string, email: string)

  /** The value the provider hands to its consumers. */
  datatype AuthState = AuthState(currentUser: Option<User>, loading: bool)

  const NoNameFallback := "No Name"
  const MissingProviderMessage := "useAuth must be used within an AuthProvider"

  /** The user resolved from an event: none without a credential or without a stored profile;
      otherwise the credential's id and email with the profile's role, the full name falling
      back to "No Name" and the username to the credential's email. */
  function ResolveUser(cred: Option<Credential>, profile: Option<ProfileDoc>): (r: Option<User>)
    ensures r.Some? <==> cred.Some? && profile.Some?
    ensures r.Some? ==> r.value.id == cred.value.uid && r.value.email == cred.value.email
                        && r.value.role == profile.value.role
    ensures r.Some? ==> r.value.fullName != ""
    ensures r.Some? && profile.value.fullName != "" ==> r.value.fullName == profile.value.fullName
    ensures r.Some? && profile.value.fullName == "" ==> r.value.fullName == NoNameFallback
    ensures r.Some? && profile.value.username != "" ==> r.value.username == profile.value.username
    ensures r.Some? && profile.value.username == "" ==> r.value.username == cred.value.email
  {
    if cred.None? || profile.None? then None
    else
      var c, p := cred.value, profile.value;
      Some(User(
        c.uid,
        if p.username != "" then p.username else c.email,
        p.role,
        if p.fullName != "" then p.fullName else NoNameFallback,
        c.email))
  }

  /** The outcome of the profile lookup an event with a credential makes: the stored profile,
      no such document, or a failed read. */
  datatype Lookup = Found(profile: ProfileDoc) | Missing | Failed

  /** The profile a lookup produced, if any. */
  function ProfileOf(lookup: Lookup): (p: Option<ProfileDoc>)
    ensures p.Some? <==> lookup.Found?
    ensures lookup.Found? ==> p == Some(lookup.profile)
  {
    if lookup.Found? then Some(lookup.profile) else None
  }

  /** Whether an event's handling stops at a failed lookup: a credential is present and the
      profile read is rejected. */
  predicate LookupFails(cred: Option<Credential>, lookup: Lookup)
  {
    cred.Some? && lookup.Failed?
  }

  /** The requests an event causes: nothing without a credential; otherwise the profile
      lookup, followed by a forced sign-out when the lookup finds no profile. */
  function EventRequests(cred: Option<Credential>, lookup: Lookup): (rs: seq<Request>)
    ensures cred.None? ==> rs == []
    ensures cred.Some? ==> |rs| >= 1 && rs[0] == GetProfile(cred.value.uid)
    ensures SignOut in rs <==> cred.Some? && lookup.Missing?
    ensures |rs| == (if cred.None? then 0 else if lookup.Missing? then 2 else 1)
  {
    if cred.None? then []
    else [GetProfile(cred.value.uid)] + (if lookup.Missing? then [SignOut] else [])
  }

  /** `AuthProvider`: holds the current user and the loading flag. */
  class AuthProvider {
    var currentUser: Option<User>
    var loading: bool

    constructor ()
      ensures currentUser == None && loading
    {
      currentUser, loading := None, true;
    }

    /** The `onAuthStateChanged` callback. `lookup` is the outcome of reading the profile
        document stored under the credential's id; it is consulted only when a credential is
        present. A failed read rejects the callback before any state is set, so the user and
        the loading flag stay as they were. */
    method OnAuthStateChanged(cred: Option<Credential>, lookup: Lookup) returns (requests: seq<Request>)
      modifies this
      ensures requests == EventRequests(cred, lookup)
      ensures LookupFails(cred, lookup) ==> currentUser == old(currentUser) && loading == old(loading)
      ensures !LookupFails(cred, lookup) ==> currentUser == ResolveUser(cred, ProfileOf(lookup)) && !loading
    {
      requests := [];
      if cred.Some? {
        requests := [GetProfile(cred.value.uid)];
        if lookup.Failed? {
          return;
        }
        if lookup.Found? {
          currentUser := ResolveUser(cred, ProfileOf(lookup));
        } else {
          currentUser := None;
          requests := requests + [SignOut];
        }
      } else {
        currentUser := None;
      }
      loading := false;
    }

    /** The callback with its lookup guarded, as a `try`/`finally` around it would make it: a
        failed read leaves nobody signed in and still ends loading. */
    method OnAuthStateChangedSettled(cred: Option<Credential>, lookup: Lookup) returns (requests: seq<Request>)
      modifies this
      ensures requests == EventRequests(cred, lookup)
      ensures currentUser == ResolveUser(cred, ProfileOf(lookup))
      ensures !loading
    {
      requests := [];
      if cred.Some? {
        requests := [GetProfile(cred.value.uid)];
        if lookup.Found? {
          currentUser := ResolveUser(cred, ProfileOf(lookup));
        } else {
          currentUser := None;
          if lookup.Missing? {
            requests := requests + [SignOut];
          }
        }
      } else {
        currentUser := None;
      }
      loading := false;
    }

    /** The context value. */
    function Value(): AuthState
      reads this
    {
      AuthState(currentUser, loading)
    }

    /** `{!loading && children}`: the application is rendered only once loading is over. */
    predicate ChildrenRendered()
      reads this
    {
      !loading
    }
  }

  /** The first event renders the application exactly when its handling does not stop at a
      failed lookup; after a failed first lookup the provider renders nothing. */
  method FirstEventRendersChildren(cred: Option<Credential>, lookup: Lookup)
    returns (rendered: bool, user: Option<User>)
    ensures rendered <==> !LookupFails(cred, lookup)
    ensures rendered ==> user == ResolveUser(cred, ProfileOf(lookup))
    ensures !rendered ==> user == None
  {
    var p := new AuthProvider();
    assert !p.ChildrenRendered();
    var _ := p.OnAuthStateChanged(cred, lookup);
    rendered := p.ChildrenRendered();
    user := p.currentUser;
  }

  /** With the guarded callback, the first event always renders the application. */
  method SettledFirstEventRendersChildren(cred: Option<Credential>, lookup: Lookup)
    returns (rendered: bool, user: Option<User>)
    ensures rendered
    ensures user == ResolveUser(cred, ProfileOf(lookup))
    ensures LookupFails(cred, lookup) ==> user == None
  {
    var p := new AuthProvider();
    var _ := p.OnAuthStateChangedSettled(cred, lookup);
    rendered := p.ChildrenRendered();
    user := p.currentUser;
  }

  /** Inside the provider, `useAuth` hands out exactly the provider's user and loading flag. */
  lemma UseAuthInsideProvider(p: AuthProvider)
    ensures UseAuth(Some(p.Value())) == Success(AuthState(p.currentUser, p.loading))
  {
  }

  /** `useAuth`: the context value, or an error when used outside the provider. */
  function UseAuth(context: Option<AuthState>): (r: Result<AuthState, string>)
    ensures r.Failure? <==> context.None?
    ensures r.Failure? ==> r.error == MissingProviderMessage
    ensures r.Success? ==> r.value == context.value
  {
    if context.None? then Failure(MissingProviderMessage) else Success(context.value)
  }
}
