/** The session store: sign-in, sign-out and the list of companies with the
    current one. Generated company ids are passed in. */
module AuthStore {
  import opened Wrappers
  import opened Seqs
  import opened AuthTypes

  /** What a caller supplies to add a company: everything but the id. */
  datatype CompanyDraft = CompanyDraft(
    name: string,
    logo: Option<string>,
    industry: Option<string>,
    isDefault: Option<bool>)

  /** A partial user for `updateUser`: `None` leaves a field alone; for the
      optional avatar, `Some(None)` clears it. */
  datatype UserPatch = UserPatch(
    id: Option<string>,
    email: Option<string>,
    name: Option<string>,
    avatar: Option<Option<string>>)

  /** The outcome of a sign-in attempt: whether it succeeded, and the state
      once it has resolved. */
  datatype LoginOutcome = LoginOutcome(success: bool, state: AuthState)

  /** Signed out, no companies, onboarding not done. */
  const InitialState: AuthState := AuthState(None, [], None, false, false, false)

  /** The demonstration user every successful sign-in produces. */
  const MockUser: User := User("1", "user@example.com", "John Doe",
    Some("https://images.unsplash.com/photo-1472099645785-5658abf4ff4e?ixlib=rb-1.2.1&auto=format&fit=facearea&facepad=2&w=256&h=256&q=80"))

  /** The demonstration companies every successful sign-in installs; the
      first one is flagged as the default. */
  const MockCompanies: seq<Company> := [
    Company("1", "Acme Inc.",
      Some("https://images.unsplash.com/photo-1568602471122-7832951cc4c5?ixlib=rb-4.0.3&ixid=MnwxMjA3fDB8MHxwaG90by1wYWdlfHx8fGVufDB8fHx8&auto=format&fit=facearea&facepad=2&w=300&h=300&q=80"),
      Some("Technology"), Some(true)),
    Company("2", "Globex Corporation",
      Some("https://images.unsplash.com/photo-1560250097-0b93528c311a?ixlib=rb-4.0.3&ixid=MnwxMjA3fDB8MHxwaG90by1wYWdlfHx8fGVufDB8fHx8&auto=format&fit=facearea&facepad=2&w=300&h=300&q=80"),
      Some("Manufacturing"), None),
    Company("3", "Soylent Corp",
      Some("https://images.unsplash.com/photo-1507003211169-0a1dd7228f2d?ixlib=rb-4.0.3&ixid=MnwxMjA3fDB8MHxwaG90by1wYWdlfHx8fGVufDB8fHx8&auto=format&fit=facearea&facepad=2&w=300&h=300&q=80"),
      Some("Food & Beverage"), None)
  ]

  /** Whether a company carries the given id. */
  function HasId(id: string): Company -> bool {
    (c: Company) => c.id == id
  }

  /** Whether a company is flagged as the default; an absent flag counts as
      not set. */
  const IsDefault: Company -> bool := (c: Company) => c.isDefault == Some(true)

  /** The company sign-in selects: the first company flagged as default,
      else the first company, else none. */
  function DefaultOrFirst(cs: seq<Company>): (r: Option<Company>)
    ensures r.None? <==> |cs| == 0
    ensures r.Some? ==> r.value in cs
    ensures (exists i :: 0 <= i < |cs| && cs[i].isDefault == Some(true)) ==>
              r.Some? && FirstWhere(cs, IsDefault, r.value)
    ensures (forall i :: 0 <= i < |cs| ==> cs[i].isDefault != Some(true)) && |cs| > 0 ==>
              r == Some(cs[0])
  {
    match Find(cs, IsDefault)
    case Some(c) => Some(c)
    case None => if |cs| > 0 then Some(cs[0]) else None
  }

  /** Signs in. Any non-empty email with any non-empty password succeeds and
      installs the demonstration user and companies, making the default
      company current; otherwise only the loading flag is reset. */
  function Login(st: AuthState, email: string, password: string): (r: LoginOutcome)
    ensures r.success <==> email != [] && password != []
    ensures !r.state.isLoading
    ensures r.state.hasCompletedOnboarding == st.hasCompletedOnboarding
    ensures !r.success ==>
      && r.state.user == st.user
      && r.state.companies == st.companies
      && r.state.currentCompany == st.currentCompany
      && r.state.isAuthenticated == st.isAuthenticated
    ensures r.success ==>
      && r.state.user == Some(MockUser)
      && r.state.companies == MockCompanies
      && r.state.currentCompany == DefaultOrFirst(MockCompanies)
      && r.state.isAuthenticated
  {
    if email != [] && password != [] then
      LoginOutcome(true, st.(user := Some(MockUser), companies := MockCompanies,
                             currentCompany := DefaultOrFirst(MockCompanies),
                             isAuthenticated := true, isLoading := false))
    else
      LoginOutcome(false, st.(isLoading := false))
  }

  /** Signs out, keeping the companies and the current company. */
  function Logout(st: AuthState): (r: AuthState)
    ensures r.user.None? && !r.isAuthenticated
    ensures r.companies == st.companies && r.currentCompany == st.currentCompany
    ensures r.isLoading == st.isLoading && r.hasCompletedOnboarding == st.hasCompletedOnboarding
  {
    st.(user := None, isAuthenticated := false)
  }

  /** Makes the first company with the given id current; an unknown id is
      ignored. */
  function SwitchCompany(st: AuthState, id: string): (r: AuthState)
    ensures (forall i :: 0 <= i < |st.companies| ==> st.companies[i].id != id) ==> r == st
    ensures (exists i :: 0 <= i < |st.companies| && st.companies[i].id == id) ==>
      && r.currentCompany.Some?
      && FirstWhere(st.companies, HasId(id), r.currentCompany.value)
      && r == st.(currentCompany := r.currentCompany)
    ensures CurrentIsKnown(st) ==> CurrentIsKnown(r)
  {
    match Find(st.companies, HasId(id))
    case Some(c) => st.(currentCompany := Some(c))
    case None => st
  }

  /** Appends a company with the given id; it becomes current exactly when
      it is the first company. */
  function AddCompany(st: AuthState, draft: CompanyDraft, id: string): (r: AuthState)
    ensures |r.companies| == |st.companies| + 1
    ensures r.companies[..|st.companies|] == st.companies
    ensures r.companies[|st.companies|] ==
              Company(id, draft.name, draft.logo, draft.industry, draft.isDefault)
    ensures |st.companies| == 0 ==> r.currentCompany == Some(r.companies[0])
    ensures |st.companies| > 0 ==> r.currentCompany == st.currentCompany
    ensures r.user == st.user && r.isAuthenticated == st.isAuthenticated
    ensures r.isLoading == st.isLoading && r.hasCompletedOnboarding == st.hasCompletedOnboarding
    ensures CurrentIsKnown(st) ==> CurrentIsKnown(r)
  {
    var c := Company(id, draft.name, draft.logo, draft.industry, draft.isDefault);
    st.(companies := st.companies + [c],
        currentCompany := if |st.companies| == 0 then Some(c) else st.currentCompany)
  }

  /** Drops every company with the given id. When the current company had
      that id, the first remaining company (or none) takes its place. */
  function RemoveCompany(st: AuthState, id: string): (r: AuthState)
    ensures forall c :: c in r.companies <==> c in st.companies && c.id != id
    ensures forall c: Company :: c.id != id ==> multiset(r.companies)[c] == multiset(st.companies)[c]
    ensures SubsequenceOf(r.companies, st.companies)
    ensures st.currentCompany.Some? && st.currentCompany.value.id == id ==>
      && (r.currentCompany.None? <==> |r.companies| == 0)
      && (r.currentCompany.Some? ==> r.currentCompany.value == r.companies[0])
    ensures !(st.currentCompany.Some? && st.currentCompany.value.id == id) ==>
      r.currentCompany == st.currentCompany
    ensures r.user == st.user && r.isAuthenticated == st.isAuthenticated
    ensures r.isLoading == st.isLoading && r.hasCompletedOnboarding == st.hasCompletedOnboarding
    ensures CurrentIsKnown(st) ==> CurrentIsKnown(r)
  {
    var remaining := Filter(st.companies, (c: Company) => c.id != id);
    var current :=
      if st.currentCompany.Some? && st.currentCompany.value.id == id
      then (if |remaining| > 0 then Some(remaining[0]) else None)
      else st.currentCompany;
    st.(companies := remaining, currentCompany := current)
  }

  /** Spreads a partial user over a user: the fields the patch supplies win,
      the others keep their value. */
  function MergeUser(u: User, p: UserPatch): (r: User)
    ensures Overlaid(p.id, u.id, r.id)
    ensures Overlaid(p.email, u.email, r.email)
    ensures Overlaid(p.name, u.name, r.name)
    ensures Overlaid(p.avatar, u.avatar, r.avatar)
  {
    User(p.id.GetOr(u.id), p.email.GetOr(u.email), p.name.GetOr(u.name), p.avatar.GetOr(u.avatar))
  }

  /** Merges the given fields into the signed-in user; without a user
      nothing changes. */
  function UpdateUser(st: AuthState, p: UserPatch): (r: AuthState)
    ensures r.user.Some? <==> st.user.Some?
    ensures st.user.Some? ==> r.user.value == MergeUser(st.user.value, p)
    ensures r.companies == st.companies && r.currentCompany == st.currentCompany
    ensures r.isAuthenticated == st.isAuthenticated && r.isLoading == st.isLoading
    ensures r.hasCompletedOnboarding == st.hasCompletedOnboarding
  {
    match st.user
    case Some(u) => st.(user := Some(MergeUser(u, p)))
    case None => st
  }

  /** Records whether the first-run flow has been completed. */
  function SetOnboardingComplete(st: AuthState, completed: bool): (r: AuthState)
    ensures r.hasCompletedOnboarding == completed
    ensures r.user == st.user && r.companies == st.companies
    ensures r.currentCompany == st.currentCompany
    ensures r.isAuthenticated == st.isAuthenticated && r.isLoading == st.isLoading
  {
    st.(hasCompletedOnboarding := completed)
  }

  /** A successful sign-in makes Acme, the company flagged as default,
      current, and the invariant holds afterwards whatever held before. */
  lemma LoginSelectsDefaultCompany(st: AuthState, email: string, password: string)
    requires email != [] && password != []
    ensures Login(st, email, password).state.currentCompany == Some(MockCompanies[0])
    ensures CurrentIsKnown(Login(st, email, password).state)
  {
    assert MockCompanies[0].isDefault == Some(true);
    var r := DefaultOrFirst(MockCompanies);
    assert r.Some? && FirstWhere(MockCompanies, IsDefault, r.value);
    var i :| 0 <= i < |MockCompanies| && MockCompanies[i] == r.value && IsDefault(MockCompanies[i]) &&
             forall j :: 0 <= j < i ==> !IsDefault(MockCompanies[j]);
    assert i == 0;
  }

  /** One call into the store, as the screens make it. */
  datatype Action =
    | LoginAction(email: string, password: string)
    | LogoutAction
    | SwitchAction(companyId: string)
    | AddAction(draft: CompanyDraft, newId: string)
    | RemoveAction(companyId: string)
    | UpdateUserAction(patch: UserPatch)
    | OnboardingAction(completed: bool)

  function Step(st: AuthState, a: Action): AuthState {
    match a
    case LoginAction(email, password) => Login(st, email, password).state
    case LogoutAction => Logout(st)
    case SwitchAction(id) => SwitchCompany(st, id)
    case AddAction(draft, id) => AddCompany(st, draft, id)
    case RemoveAction(id) => RemoveCompany(st, id)
    case UpdateUserAction(p) => UpdateUser(st, p)
    case OnboardingAction(b) => SetOnboardingComplete(st, b)
  }

  function Run(st: AuthState, actions: seq<Action>): AuthState
    decreases |actions|
  {
    if |actions| == 0 then st else Run(Step(st, actions[0]), actions[1..])
  }

  /** Every operation keeps the current company among the known companies. */
  lemma StepKeepsCurrentKnown(st: AuthState, a: Action)
    requires CurrentIsKnown(st)
    ensures CurrentIsKnown(Step(st, a))
  {
    if a.LoginAction? && a.email != [] && a.password != [] {
      LoginSelectsDefaultCompany(st, a.email, a.password);
    }
  }

  /** From any state whose current company is known, any sequence of calls
      keeps the current company among the known companies. */
  lemma {:induction false} RunKeepsCurrentKnown(st: AuthState, actions: seq<Action>)
    requires CurrentIsKnown(st)
    ensures CurrentIsKnown(Run(st, actions))
    decreases |actions|
  {
    if |actions| > 0 {
      StepKeepsCurrentKnown(st, actions[0]);
      RunKeepsCurrentKnown(Step(st, actions[0]), actions[1..]);
    }
  }

  /** The initial state satisfies the invariant, so every reachable state
      does. */
  lemma ReachableCurrentKnown(actions: seq<Action>)
    ensures CurrentIsKnown(Run(InitialState, actions))
  {
    RunKeepsCurrentKnown(InitialState, actions);
  }
}
