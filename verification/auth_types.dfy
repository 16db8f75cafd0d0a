/** The user, company and session records of the application. */
module AuthTypes {
  import opened Wrappers

  datatype User = User(id: string, email: string, name: string, avatar: Option<string>)

  /** A company; `isDefault` is an optional flag, set on at most one company
      by convention only. */
  datatype Company = Company(
    id: string,
    name: string,
    logo: Option<string>,
    industry: Option<string>,
    isDefault: Option<bool>)

  /** The session: who is signed in, the companies known to the app and the
      one whose documents are shown. */
  datatype AuthState = AuthState(
    user: Option<User>,
    companies: seq<Company>,
    currentCompany: Option<Company>,
    isAuthenticated: bool,
    isLoading: bool,
    hasCompletedOnboarding: bool)

  /** The session's key invariant: the current company, when there is one,
      is one of the known companies. */
  predicate CurrentIsKnown(st: AuthState) {
    st.currentCompany.None? || st.currentCompany.value in st.companies
  }
}
