/** The client-side router: its route table and the authentication guard run
    before every navigation.

    The guard reads the stored token and looks at the route records the
    target location matched. A protected target without a token is sent to
    `login`; the `login` and `register` pages with a token are sent to
    `dashboard`; everything else proceeds. The token and the matched records
    are inputs here, not a storage read and a router lookup. */
module Router {
  import opened JsValues

  /** One entry of the route table. `requiresAuth` is the truthiness of the
      record's `meta.requiresAuth`; records without that meta read false. */
  datatype RouteRecord = RouteRecord(path: string, name: string, requiresAuth: bool)

  /** The application's route table, in declaration order. */
  const Routes: seq<RouteRecord> := [
    RouteRecord("/", "landing", false),
    RouteRecord("/login", "login", false),
    RouteRecord("/register", "register", false),
    RouteRecord("/verify-otp", "verify-otp", false),
    RouteRecord("/dashboard", "dashboard", true),
    RouteRecord("/documents", "documents", true),
    RouteRecord("/upload", "upload", true),
    RouteRecord("/folders", "folders", true)
  ]

  /** The names of the routes that carry `requiresAuth`. */
  const ProtectedNames: set<string> := {"dashboard", "documents", "upload", "folders"}

  /** A navigation target: its route name (absent for an unnamed location)
      and the route records it matched. */
  datatype Location = Location(name: Option<string>, matched: seq<RouteRecord>)

  /** What the guard tells the router: go on, or navigate to the named route instead. */
  datatype GuardResult = Proceed | Redirect(target: string)

  /** `to.matched.some(record => record.meta.requiresAuth)`. */
  function RequiresAuth(matched: seq<RouteRecord>): (r: bool)
    ensures r <==> exists i :: 0 <= i < |matched| && matched[i].requiresAuth
  {
    if |matched| == 0 then false
    else if matched[0].requiresAuth then true
    else
      var rest := RequiresAuth(matched[1..]);
      assert forall i :: 1 <= i < |matched| ==> matched[i] == matched[1..][i - 1];
      rest
  }

  /** The pages only meant for signed-out visitors. */
  predicate IsAuthPage(name: Option<string>) {
    name == Some("login") || name == Some("register")
  }

  /** The `beforeEach` guard. `token` is the stored token, absent when
      nothing is stored. */
  function BeforeEach(token: Option<string>, to: Location): (r: GuardResult)
    ensures r == Redirect("login") <==>
              (exists i :: 0 <= i < |to.matched| && to.matched[i].requiresAuth) && !Truthy(token)
    ensures r == Redirect("dashboard") <==> Truthy(token) && IsAuthPage(to.name)
    ensures r.Redirect? ==> r.target == "login" || r.target == "dashboard"
  {
    if RequiresAuth(to.matched) && !Truthy(token) then Redirect("login")
    else if IsAuthPage(to.name) && Truthy(token) then Redirect("dashboard")
    else Proceed
  }

  /** The first record of `routes` carrying `name`. */
  function FindRoute(routes: seq<RouteRecord>, name: string): (r: Option<RouteRecord>)
    ensures r.Some? ==> r.value in routes && r.value.name == name
    ensures r.Some? ==> exists k :: 0 <= k < |routes| && routes[k] == r.value
                                    && forall j :: 0 <= j < k ==> routes[j].name != name
    ensures r.None? <==> forall i :: 0 <= i < |routes| ==> routes[i].name != name
  {
    if |routes| == 0 then None
    else if routes[0].name == name then Some(routes[0])
    else
      var rest := FindRoute(routes[1..], name);
      assert forall i :: 1 <= i < |routes| ==> routes[i] == routes[1..][i - 1];
      rest
  }

  /** The location a navigation `{ name }` resolves to in the route table.
      The table is flat, so a named route matches exactly its own record. */
  function Resolve(name: string): (r: Option<Location>)
    ensures r.Some? <==> exists i :: 0 <= i < |Routes| && Routes[i].name == name
    ensures r.Some? ==> r.value.name == Some(name) && |r.value.matched| == 1
                        && r.value.matched[0] in Routes && r.value.matched[0].name == name
  {
    match FindRoute(Routes, name)
    case None => None
    case Some(rec) => Some(Location(Some(name), [rec]))
  }

  /** Runs the guard on `to` and follows its redirects, at most `budget` of
      them. Absent when the budget runs out or a redirect names no route. */
  function Navigate(token: Option<string>, to: Location, budget: nat): (r: Option<Location>)
    ensures r.Some? ==> BeforeEach(token, r.value) == Proceed
    ensures BeforeEach(token, to) == Proceed ==> r == Some(to)
    decreases budget
  {
    match BeforeEach(token, to)
    case Proceed => Some(to)
    case Redirect(target) =>
      if budget == 0 then None
      else
        match Resolve(target)
        case None => None
        case Some(next) => Navigate(token, next, budget - 1)
  }

  /** The three-input decision table the guard implements, written out row by row. */
  function DecisionTable(requiresAuth: bool, hasToken: bool, authPage: bool): GuardResult {
    match (requiresAuth, hasToken, authPage)
    case (true,  false, false) => Redirect("login")
    case (true,  false, true)  => Redirect("login")
    case (false, false, false) => Proceed
    case (false, false, true)  => Proceed
    case (true,  true,  false) => Proceed
    case (false, true,  false) => Proceed
    case (true,  true,  true)  => Redirect("dashboard")
    case (false, true,  true)  => Redirect("dashboard")
  }

  /** The guard is the decision table applied to the protection flag, the
      truthiness of the token, and whether the target is an auth page. */
  lemma BeforeEachIsDecisionTable(token: Option<string>, to: Location)
    ensures BeforeEach(token, to)
            == DecisionTable(RequiresAuth(to.matched), Truthy(token), IsAuthPage(to.name))
  {
  }

  /** An empty stored token is treated exactly like no token at all. */
  lemma EmptyTokenIsNoToken(to: Location)
    ensures BeforeEach(Some(""), to) == BeforeEach(None, to)
  {
  }

  /** Route names in the table are unique. */
  lemma RouteNamesUnique()
    ensures forall i, j :: 0 <= i < j < |Routes| ==> Routes[i].name != Routes[j].name
  {
  }

  /** Exactly the four application pages are protected. */
  lemma ProtectedRoutesAre()
    ensures forall i :: 0 <= i < |Routes| ==> (Routes[i].requiresAuth <==> Routes[i].name in ProtectedNames)
  {
  }

  /** Resolving the name of the i-th table entry gives a location matching that entry. */
  lemma ResolveEntry(i: nat)
    requires i < |Routes|
    ensures Resolve(Routes[i].name) == Some(Location(Some(Routes[i].name), [Routes[i]]))
  {
    RouteNamesUnique();
    var rec := FindRoute(Routes, Routes[i].name).value;
    var k :| 0 <= k < |Routes| && Routes[k] == rec;
    assert k == i;
  }

  /** With a token, no protected page is ever redirected. */
  lemma ProtectedNeverRedirectedWithToken(token: Option<string>, name: string)
    requires Truthy(token)
    requires name in ProtectedNames
    ensures Resolve(name).Some? && BeforeEach(token, Resolve(name).value) == Proceed
  {
    assert Routes[4].name == "dashboard" && Routes[5].name == "documents";
    assert Routes[6].name == "upload" && Routes[7].name == "folders";
  }

  /** Without a token, every protected page sends the visitor to `login`. */
  lemma ProtectedWithoutTokenGoesToLogin(token: Option<string>, name: string)
    requires !Truthy(token)
    requires name in ProtectedNames
    ensures Resolve(name).Some? && BeforeEach(token, Resolve(name).value) == Redirect("login")
  {
    var i := if name == "dashboard" then 4 else if name == "documents" then 5
             else if name == "upload" then 6 else 7;
    assert Routes[i].name == name && Routes[i].requiresAuth;
    ResolveEntry(i);
  }

  /** With a token, `login` and `register` send the visitor to `dashboard`. */
  lemma AuthPagesWithTokenGoToDashboard(token: Option<string>, name: string)
    requires Truthy(token)
    requires name == "login" || name == "register"
    ensures Resolve(name).Some? && BeforeEach(token, Resolve(name).value) == Redirect("dashboard")
  {
    assert Routes[1].name == "login" && Routes[2].name == "register";
  }

  /** `landing` and `verify-otp` proceed whatever the token. */
  lemma PublicPagesNeverRedirected(token: Option<string>, name: string)
    requires name == "landing" || name == "verify-otp"
    ensures Resolve(name).Some? && BeforeEach(token, Resolve(name).value) == Proceed
  {
    var i := if name == "landing" then 0 else 3;
    assert Routes[i].name == name && !Routes[i].requiresAuth;
    ResolveEntry(i);
    assert !RequiresAuth([Routes[i]]);
  }

  /** A redirect is stable: the guard, run again on the redirect target with
      the same token, lets the navigation proceed. */
  lemma RedirectIsStable(token: Option<string>, to: Location)
    requires BeforeEach(token, to).Redirect?
    ensures Resolve(BeforeEach(token, to).target).Some?
    ensures BeforeEach(token, Resolve(BeforeEach(token, to).target).value) == Proceed
  {
    if BeforeEach(token, to).target == "login" {
      ResolveEntry(1);
    } else {
      ResolveEntry(4);
    }
  }

  /** There are no redirect loops: every navigation settles after at most one
      redirect, on the target itself or on the page the guard sent it to. */
  lemma NoRedirectLoop(token: Option<string>, to: Location)
    ensures Navigate(token, to, 1).Some?
    ensures BeforeEach(token, to) == Proceed ==> Navigate(token, to, 1) == Some(to)
    ensures BeforeEach(token, to).Redirect? ==>
              Navigate(token, to, 1).value.name == Some(BeforeEach(token, to).target)
  {
    if BeforeEach(token, to).Redirect? {
      RedirectIsStable(token, to);
    }
  }
}
