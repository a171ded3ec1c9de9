/** The hosted authentication service and document store, seen only through the requests the
    views send to them. Their answers are passed to the view operations as inputs. */
module Backend {
  import opened Types

  datatype Request =
    | SignIn(email: string, password: string)
    | SignOut
    | GetProfile(uid: string)
    | CreateCredential(email: string, password: string)
    | WriteProfile(uid: string, profile: ProfileDoc)
    | ReadCases
    | ReadUsers
    | UpdateRole(uid: string, role: string)
    | AddCase(payload: CasePayload)
    | UpdateCase(id: string, payload: CasePayload)

  /** An error thrown by either service: a machine code such as `auth/wrong-password` and a
      human-readable message. */
  datatype ServiceError = ServiceError(code: string, message: string)
}
