/** The session-state transitions of the application shell (App.tsx):
    upgrading the signed-in user, the sign-in / registration form, the
    admin gating of the sidebar link and route, and the role label.
    The clock, the random avatar seed and date formatting are parameters. */
module Session {
  import opened Types
  import JsArray

  // ---------------------------------------------------------------------
  // Upgrade

  /** What `handleUpgrade` receives: a plan duration, or (as the pricing
      page wires it) the click event, which equals no duration. */
  datatype UpgradeArg = Plan(duration: PlanDuration) | ClickEvent

  /** Months added to today for the expiry date; a year is twelve months. */
  function MonthsAdded(arg: UpgradeArg): nat {
    match arg
    case Plan(Month) => 1
    case Plan(Quarter) => 3
    case Plan(Year) => 12
    case ClickEvent => 0
  }

  /** `handleUpgrade`: the user becomes Pro with an expiry date some months
      from today, and nothing else about the profile changes.
      `dateAfterMonths(n)` stands for the ISO date, as `YYYY-MM-DD`, of
      today plus `n` months. */
  function Upgrade(user: UserProfile, arg: UpgradeArg, dateAfterMonths: nat -> string): (r: UserProfile)
    ensures r.isPro
    ensures arg == Plan(Month) ==> r.expiryDate == Some(dateAfterMonths(1))
    ensures arg == Plan(Quarter) ==> r.expiryDate == Some(dateAfterMonths(3))
    ensures arg == Plan(Year) ==> r.expiryDate == Some(dateAfterMonths(12))
    ensures arg == ClickEvent ==> r.expiryDate == Some(dateAfterMonths(0))
    ensures r.(isPro := user.isPro, expiryDate := user.expiryDate) == user
  {
    user.(isPro := true, expiryDate := Some(dateAfterMonths(MonthsAdded(arg))))
  }

  /** Upgrading twice with the same argument is the same as upgrading once. */
  lemma UpgradeIdempotent(user: UserProfile, arg: UpgradeArg, dateAfterMonths: nat -> string)
    ensures Upgrade(Upgrade(user, arg, dateAfterMonths), arg, dateAfterMonths) == Upgrade(user, arg, dateAfterMonths)
  {
  }

  // ---------------------------------------------------------------------
  // Sign-in and registration

  /** Sign-in: the first roster profile with the entered email becomes the
      current user; with no such profile the current user stays. */
  function Login(current: UserProfile, roster: seq<UserProfile>, email: string): (r: UserProfile)
    ensures (forall i :: 0 <= i < |roster| ==> roster[i].email != email) ==> r == current
    ensures (exists i :: 0 <= i < |roster| && roster[i].email == email) ==>
      exists i :: 0 <= i < |roster| && roster[i] == r && r.email == email
                  && forall j :: 0 <= j < i ==> roster[j].email != email
  {
    match JsArray.Find(roster, (u: UserProfile) => u.email == email)
    case Some(u) => u
    case None => current
  }

  /** The name a registration gets when the form's name is empty. */
  const DefaultName: string := "新用户"

  /** A freshly registered profile. `now` is `Date.now()` in decimal and
      `seed` is `Math.random()` as text. */
  function Register(email: string, name: string, now: string, seed: string): (r: UserProfile)
    ensures r.email == email
    ensures r.name == if name == "" then DefaultName else name
    ensures r.id == "u" + now
    ensures r.avatar == "https://picsum.photos/seed/" + seed + "/200"
    ensures !r.isPro && !r.isAdmin && r.expiryDate == None
    ensures r.completeness == 10
    ensures r.tags == [] && r.solving == "" && r.resources == "" && r.needs == ""
    ensures r.matchCount == 0 && r.viewCount == 0 && r.requestCount == 0
    ensures r.phone == "" && r.linkedin == ""
    ensures r.slogan == "新加入 Linkr 的人脉探索者" && r.role == "待完善" && r.industry == "待完善"
    ensures r.location == "未知"
  {
    UserProfile(
      id := "u" + now,
      name := if name == "" then DefaultName else name,
      avatar := "https://picsum.photos/seed/" + seed + "/200",
      slogan := "新加入 Linkr 的人脉探索者",
      role := "待完善",
      industry := "待完善",
      tags := [],
      solving := "",
      resources := "",
      needs := "",
      location := "未知",
      completeness := 10,
      isPro := false,
      isAdmin := false,
      matchCount := 0,
      viewCount := 0,
      requestCount := 0,
      expiryDate := None,
      phone := "",
      email := email,
      linkedin := ""
    )
  }

  /** The part of the shell's state the auth modal touches. */
  datatype AuthState = AuthState(
    currentUser: UserProfile,
    showAuthModal: bool,
    isLoginView: bool,
    authEmail: string,
    authName: string
  )

  /** `handleAuthAction`: sign in or register depending on the modal's
      view, then close the modal and clear both fields, whether or not the
      sign-in found anyone. */
  function HandleAuthAction(s: AuthState, roster: seq<UserProfile>, now: string, seed: string): (r: AuthState)
    ensures !r.showAuthModal && r.authEmail == "" && r.authName == ""
    ensures r.isLoginView == s.isLoginView
    ensures s.isLoginView ==> r.currentUser == Login(s.currentUser, roster, s.authEmail)
    ensures !s.isLoginView ==> r.currentUser == Register(s.authEmail, s.authName, now, seed)
  {
    var user :=
      if s.isLoginView then Login(s.currentUser, roster, s.authEmail)
      else Register(s.authEmail, s.authName, now, seed);
    s.(currentUser := user, showAuthModal := false, authEmail := "", authName := "")
  }

  /** A sign-in with an email nobody in the roster has leaves the current
      user as it was, but still closes and clears the form. */
  lemma UnknownEmailKeepsUser(s: AuthState, roster: seq<UserProfile>, now: string, seed: string)
    requires s.isLoginView
    requires forall i :: 0 <= i < |roster| ==> roster[i].email != s.authEmail
    ensures HandleAuthAction(s, roster, now, seed)
      == s.(showAuthModal := false, authEmail := "", authName := "")
  {
  }

  // ---------------------------------------------------------------------
  // Admin gating and the role label

  /** What the `/admin` route renders. */
  datatype AdminPage = AdminDashboard | RedirectTo(path: string)

  /** The `/admin` route: the dashboard for admins, otherwise a redirect
      to the match view at `/`. */
  function AdminRoute(user: UserProfile): (r: AdminPage)
    ensures r == AdminDashboard <==> user.isAdmin
    ensures !user.isAdmin ==> r == RedirectTo("/")
  {
    if user.isAdmin then AdminDashboard else RedirectTo("/")
  }

  /** The sidebar's link targets: four links for everyone, and the admin
      link last for admins only. */
  function SidebarLinks(user: UserProfile): (r: seq<string>)
    ensures |r| == if user.isAdmin then 5 else 4
    ensures r[..4] == ["/", "/dashboard", "/profile", "/upgrade"]
    ensures "/admin" in r <==> user.isAdmin
  {
    var links := ["/", "/dashboard", "/profile", "/upgrade"];
    if user.isAdmin then links + ["/admin"] else links
  }

  /** The sidebar offers the admin link exactly to those the admin route
      lets through. */
  lemma AdminGatingAgrees(user: UserProfile)
    ensures "/admin" in SidebarLinks(user) <==> AdminRoute(user) == AdminDashboard
  {
  }

  /** The label under the user's name. */
  datatype Role = SystemAdmin | ProMember | FreeTier
  {
    function Label(): string {
      match this
      case SystemAdmin => "系统管理员"
      case ProMember => "Pro 会员"
      case FreeTier => "免费版"
    }
  }

  /** Admin takes priority over Pro, and Pro over free. */
  function RoleOf(user: UserProfile): (r: Role)
    ensures r == SystemAdmin <==> user.isAdmin
    ensures r == ProMember <==> !user.isAdmin && user.isPro
    ensures r == FreeTier <==> !user.isAdmin && !user.isPro
  {
    if user.isAdmin then SystemAdmin else if user.isPro then ProMember else FreeTier
  }

  /** Upgrading shows the Pro label, except to an admin, whose label and
      admin access are untouched. */
  lemma UpgradeRoleAndAccess(user: UserProfile, arg: UpgradeArg, dateAfterMonths: nat -> string)
    ensures RoleOf(Upgrade(user, arg, dateAfterMonths)) == if user.isAdmin then SystemAdmin else ProMember
    ensures AdminRoute(Upgrade(user, arg, dateAfterMonths)) == AdminRoute(user)
    ensures SidebarLinks(Upgrade(user, arg, dateAfterMonths)) == SidebarLinks(user)
  {
  }

  /** A newly registered user is on the free tier and has no admin access. */
  lemma RegisteredUserIsFree(email: string, name: string, now: string, seed: string)
    ensures RoleOf(Register(email, name, now, seed)) == FreeTier
    ensures AdminRoute(Register(email, name, now, seed)) == RedirectTo("/")
    ensures "/admin" !in SidebarLinks(Register(email, name, now, seed))
  {
  }
}
