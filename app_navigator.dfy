/**
 * The top-level navigator: a session holding `user` and `isLoading`, the
 * handlers that change them, and the route root rendered from the two.
 */
module Navigation {
  import opened Types

  /** The screens registered on the root stack. */
  datatype RouteName = Login | SignUp | CustomerTabs | ProfessionalTabs | CreateJob | SelectService

  /** The screens of the two bottom-tab navigators. */
  datatype TabName = Home | Jobs | JobFeed | MyJobs | Chat | Profile

  datatype Tab = Tab(name: TabName, barLabel: string)

  /** What the navigator renders: the neutral waiting view, or a stack of screens. */
  datatype RootView = LoadingView | StackView(screens: seq<RouteName>)

  const CustomerTabSet: seq<Tab> :=
    [Tab(Home, "Home"), Tab(Jobs, "My Jobs"), Tab(Chat, "Chat"), Tab(Profile, "Profile")]

  const ProfessionalTabSet: seq<Tab> :=
    [Tab(JobFeed, "Jobs"), Tab(MyJobs, "My Jobs"), Tab(Chat, "Chat"), Tab(Profile, "Profile")]

  /** The route root as a function of the two pieces of session state. */
  function RenderRoot(user: Option<User>, isLoading: bool): RootView {
    if isLoading then LoadingView
    else match user
      case None => StackView([Login, SignUp])
      case Some(u) =>
        StackView([if u.userType == CustomerUser then CustomerTabs else ProfessionalTabs,
                   CreateJob, SelectService])
  }

  /** The root routes a view registers. */
  function Registered(v: RootView): set<RouteName> {
    match v
    case LoadingView => {}
    case StackView(screens) => set i | 0 <= i < |screens| :: screens[i]
  }

  function TabsOf(route: RouteName): seq<Tab> {
    match route
    case CustomerTabs => CustomerTabSet
    case ProfessionalTabs => ProfessionalTabSet
    case _ => []
  }

  function TabNames(tabs: seq<Tab>): set<TabName> {
    set i | 0 <= i < |tabs| :: tabs[i].name
  }

  /** Every tab screen a view makes reachable through one of its tab navigators. */
  function ReachableTabs(v: RootView): set<TabName> {
    set r, i | r in Registered(v) && 0 <= i < |TabsOf(r)| :: TabsOf(r)[i].name
  }

  lemma TabSets()
    ensures TabNames(CustomerTabSet) == {Home, Jobs, Chat, Profile}
    ensures TabNames(ProfessionalTabSet) == {JobFeed, MyJobs, Chat, Profile}
    ensures |CustomerTabSet| == 4 && |ProfessionalTabSet| == 4
  {
    assert CustomerTabSet[0].name == Home && CustomerTabSet[1].name == Jobs;
    assert CustomerTabSet[2].name == Chat && CustomerTabSet[3].name == Profile;
    assert ProfessionalTabSet[0].name == JobFeed && ProfessionalTabSet[1].name == MyJobs;
    assert ProfessionalTabSet[2].name == Chat && ProfessionalTabSet[3].name == Profile;
  }

  /** While loading, the waiting view is rendered whatever the user is. */
  lemma LoadingHidesEveryGraph(user: Option<User>)
    ensures RenderRoot(user, true) == LoadingView
    ensures Registered(RenderRoot(user, true)) == {}
    ensures ReachableTabs(RenderRoot(user, true)) == {}
  {
  }

  /** Route-root selection: which root routes are registered, as an
      if-and-only-if over the session state, covering every case. */
  lemma RouteRootSelection(user: Option<User>, isLoading: bool)
    ensures var reg := Registered(RenderRoot(user, isLoading));
      && (Login in reg <==> !isLoading && user.None?)
      && (SignUp in reg <==> !isLoading && user.None?)
      && (CustomerTabs in reg <==> !isLoading && user.Some? && user.value.userType == CustomerUser)
      && (ProfessionalTabs in reg <==> !isLoading && user.Some? && user.value.userType != CustomerUser)
      && (CreateJob in reg <==> !isLoading && user.Some?)
      && (SelectService in reg <==> !isLoading && user.Some?)
  {
    var v := RenderRoot(user, isLoading);
    if v.StackView? {
      assert v.screens[0] in Registered(v) && v.screens[1] in Registered(v);
      if user.Some? {
        assert v.screens[2] in Registered(v);
      }
    }
  }

  /** The customer and professional graphs are never reachable together,
      and signed out neither is. */
  lemma RoleGraphsExclusive(user: Option<User>, isLoading: bool)
    ensures var reg := Registered(RenderRoot(user, isLoading));
      && !(CustomerTabs in reg && ProfessionalTabs in reg)
      && (user.None? ==> ReachableTabs(RenderRoot(user, isLoading)) == {})
  {
    RouteRootSelection(user, isLoading);
    var v := RenderRoot(user, isLoading);
    if user.None? && !isLoading {
      assert Registered(v) == {Login, SignUp} by {
        assert v.screens == [Login, SignUp];
        assert v.screens[0] == Login && v.screens[1] == SignUp;
      }
    }
  }

  /** A customer reaches exactly the customer tabs; any other role, admin
      included, exactly the professional tabs. */
  lemma {:induction false} SignedInTabs(u: User)
    ensures u.userType == CustomerUser ==>
      ReachableTabs(RenderRoot(Some(u), false)) == TabNames(CustomerTabSet)
    ensures u.userType != CustomerUser ==>
      ReachableTabs(RenderRoot(Some(u), false)) == TabNames(ProfessionalTabSet)
  {
    var v := RenderRoot(Some(u), false);
    var root := if u.userType == CustomerUser then CustomerTabs else ProfessionalTabs;
    assert Registered(v) == {root, CreateJob, SelectService} by {
      assert v.screens == [root, CreateJob, SelectService];
      assert v.screens[0] == root && v.screens[1] == CreateJob && v.screens[2] == SelectService;
    }
    forall t ensures t in ReachableTabs(v) <==> t in TabNames(TabsOf(root)) {
      if t in TabNames(TabsOf(root)) {
        var i :| 0 <= i < |TabsOf(root)| && TabsOf(root)[i].name == t;
        assert root in Registered(v);
      }
    }
  }

  /** The navigator's session: which user is signed in and whether the
      startup check is still running. */
  class Session {
    var user: Option<User>
    var isLoading: bool

    /** The session starts signed out and loading. */
    constructor ()
      ensures user == None && isLoading
      ensures Root() == LoadingView
    {
      user := None;
      isLoading := true;
    }

    function Root(): RootView
      reads this
    {
      RenderRoot(user, isLoading)
    }

    /** The startup timeout firing: loading ends, the user is unchanged. */
    method FinishLoading()
      modifies this
      ensures !isLoading && user == old(user)
      ensures Root() == RenderRoot(old(user), false)
    {
      isLoading := false;
    }

    method HandleLogin(userData: User)
      modifies this
      ensures user == Some(userData) && isLoading == old(isLoading)
      ensures Root() == RenderRoot(Some(userData), old(isLoading))
    {
      user := Some(userData);
    }

    method HandleSignUp(userData: User)
      modifies this
      ensures user == Some(userData) && isLoading == old(isLoading)
      ensures Root() == RenderRoot(Some(userData), old(isLoading))
    {
      user := Some(userData);
    }

    method HandleLogout()
      modifies this
      ensures user == None && isLoading == old(isLoading)
      ensures Root() == RenderRoot(None, old(isLoading))
    {
      user := None;
    }
  }
}
