/** App.jsx: the client routes with their guards, the role-dependent
    navigation links, and logging out. The auth context (token and user,
    mirrored to localStorage by AuthContext.jsx) is the `Session` class;
    the mirroring itself is not part of this model. The mobile menu is
    modelled with the single open state its button and links evidently
    share; what the two separate states as written do is proved alongside. */
module AppShell {
  import opened Common

  /** The `user` object the client keeps: the reply's `user` as JSON. */
  datatype UserJson = UserJson(id: Option<string>, email: Option<string>, name: Option<string>, role: Option<string>)

  /** The `data` of a successful login or registration reply. */
  datatype SessionJson = SessionJson(token: Option<string>, user: Option<UserJson>)

  /** `user?.role`. */
  function RoleOf(user: Option<UserJson>): Option<string> {
    if user.Some? then user.value.role else None
  }

  datatype Guard = Open | Protected | AdminProtected | LabProtected | CollectorProtected

  datatype Page = Welcome | Login | Signup | CollectorDashboard | AdminDashboard | LabProcessing

  /** The `<Routes>` table. */
  function RouteOf(path: string): Option<(Guard, Page)> {
    if path == "/" then Some((Open, Welcome))
    else if path == "/login" then Some((Open, Login))
    else if path == "/signup" then Some((Open, Signup))
    else if path == "/dashboard" then Some((CollectorProtected, CollectorDashboard))
    else if path == "/admin" then Some((AdminProtected, AdminDashboard))
    else if path == "/lab" then Some((LabProtected, LabProcessing))
    else None
  }

  /** What a guard does: `None` renders its children, `Some(p)` navigates
      to `p`. The token is checked before the role. */
  function Decide(g: Guard, token: Option<string>, role: Option<string>): (r: Option<string>)
    ensures g != Open && !Truthy(token) ==> r == Some("/login")
    ensures g == Open || (g == Protected && Truthy(token)) ==> r.None?
    ensures g == AdminProtected && Truthy(token) ==> (r.None? <==> role == Some("admin"))
    ensures g == LabProtected && Truthy(token) ==> (r.None? <==> role == Some("lab"))
    ensures g == CollectorProtected && Truthy(token) ==> (r.None? <==> role == Some("collector"))
    ensures r.Some? ==> r.value in {"/login", "/dashboard", "/"}
  {
    match g
    case Open => None
    case Protected => if !Truthy(token) then Some("/login") else None
    case AdminProtected =>
      if !Truthy(token) then Some("/login")
      else if role != Some("admin") then Some("/dashboard") else None
    case LabProtected =>
      if !Truthy(token) then Some("/login")
      else if role != Some("lab") then Some("/dashboard") else None
    case CollectorProtected =>
      if !Truthy(token) then Some("/login")
      else if role != Some("collector") then Some("/") else None
  }

  datatype View = Show(page: Page) | Redirect(to: string) | Blank

  /** What the client shows at `path`. */
  function Visit(path: string, token: Option<string>, user: Option<UserJson>): View {
    match RouteOf(path)
    case None => Blank
    case Some((g, page)) =>
      match Decide(g, token, RoleOf(user))
      case None => Show(page)
      case Some(to) => Redirect(to)
  }

  /** Redirects never loop: at most two of them reach a rendered page. */
  lemma {:induction false} RedirectsSettle(path: string, token: Option<string>, user: Option<UserJson>)
    ensures var v := Visit(path, token, user);
            v.Redirect? ==>
              var w := Visit(v.to, token, user);
              w.Show? || (w.Redirect? && Visit(w.to, token, user).Show?)
  {
    var v := Visit(path, token, user);
    if v.Redirect? {
      assert v.to in {"/login", "/dashboard", "/"};
    }
  }

  /** Where Signup and Login navigate after success. */
  function LandingPath(role: Option<string>): (p: string)
    ensures role == Some("admin") ==> p == "/admin"
    ensures role == Some("lab") ==> p == "/lab"
    ensures role != Some("admin") && role != Some("lab") ==> p == "/dashboard"
  {
    if role == Some("admin") then "/admin"
    else if role == Some("lab") then "/lab"
    else "/dashboard"
  }

  /** After a successful sign-in each privileged role lands on its own
      page; a plain user lands on `/dashboard`, which sends them on to the
      welcome page. */
  lemma LandingRenders(token: Option<string>, user: UserJson)
    requires Truthy(token)
    ensures user.role == Some("admin") ==> Visit(LandingPath(user.role), token, Some(user)) == Show(AdminDashboard)
    ensures user.role == Some("lab") ==> Visit(LandingPath(user.role), token, Some(user)) == Show(LabProcessing)
    ensures user.role == Some("collector") ==>
              Visit(LandingPath(user.role), token, Some(user)) == Show(CollectorDashboard)
    ensures user.role !in {Some("admin"), Some("lab"), Some("collector")} ==>
              Visit(LandingPath(user.role), token, Some(user)) == Redirect("/")
              && Visit("/", token, Some(user)) == Show(Welcome)
  {
  }

  /** The role links of the navigation bars. */
  function RoleLinks(role: Option<string>): (links: seq<string>)
    ensures role == Some("collector") ==> links == ["/dashboard"]
    ensures role == Some("admin") ==> links == ["/admin"]
    ensures role == Some("lab") ==> links == ["/lab"]
    ensures role !in {Some("collector"), Some("admin"), Some("lab")} ==> links == []
  {
    if role == Some("collector") then ["/dashboard"]
    else if role == Some("admin") then ["/admin"]
    else if role == Some("lab") then ["/lab"]
    else []
  }

  /** `TopNavLinks`: Home, the role link of a signed-in user, and the Login
      and Sign Up links, which a signed-in user keeps as quick links next to
      Logout. The mobile menu lists the same links in the same order. */
  function TopNavLinks(user: Option<UserJson>): (links: seq<string>)
    ensures |links| >= 3 && links[0] == "/" && links[|links| - 2..] == ["/login", "/signup"]
    ensures user.None? ==> links == ["/", "/login", "/signup"]
    ensures user.Some? ==> links == ["/"] + RoleLinks(RoleOf(user)) + ["/login", "/signup"]
  {
    ["/"] + (if user.None? then [] else RoleLinks(RoleOf(user))) + ["/login", "/signup"]
  }

  /** With a token, every link the bar offers renders a page: no link leads
      into a guard's redirect. */
  lemma {:induction false} NavLinksRender(token: Option<string>, user: Option<UserJson>, link: string)
    requires Truthy(token)
    requires link in TopNavLinks(user)
    ensures Visit(link, token, user).Show?
  {
    var role := RoleOf(user);
    if link in RoleLinks(role) {
      assert role in {Some("collector"), Some("admin"), Some("lab")};
    } else {
      assert link in ["/", "/login", "/signup"];
    }
  }

  /** A click that reaches the mobile menu's state: the menu button, a link
      of the menu, or its Logout button. */
  datatype MenuClick = MenuButton | MenuLink | MenuLogout

  /** The state after a run of clicks, starting from `useState(false)`. */
  function After(step: (bool, MenuClick) -> bool, clicks: seq<MenuClick>): bool
    decreases |clicks|
  {
    if clicks == [] then false
    else step(After(step, clicks[..|clicks| - 1]), clicks[|clicks| - 1])
  }

  /** `MobileMenuButton`'s own `isOpen`, which picks the icon: the button
      flips it and nothing else touches it. */
  function ButtonIcon(open: bool, c: MenuClick): bool {
    if c == MenuButton then !open else open
  }

  /** `MobileNav`'s own `isOpen`, as written: the button's click flips the
      button's separate state and leaves this one alone; the menu's links
      and its Logout set it to false. */
  function NavOpenAsWritten(open: bool, c: MenuClick): bool {
    if c == MenuButton then open else false
  }

  /** What `MobileNav` renders: nothing while closed, otherwise the links. */
  function MobileNavShown(open: bool, user: Option<UserJson>): (shown: Option<seq<string>>)
    ensures shown.Some? <==> open
    ensures shown.Some? ==> shown.value == TopNavLinks(user)
  {
    if open then Some(TopNavLinks(user)) else None
  }

  /** As written, no run of clicks opens the mobile menu. */
  lemma {:induction false} MobileNavNeverOpens(clicks: seq<MenuClick>, user: Option<UserJson>)
    ensures !After(NavOpenAsWritten, clicks)
    ensures MobileNavShown(After(NavOpenAsWritten, clicks), user).None?
    decreases |clicks|
  {
    if clicks != [] {
      MobileNavNeverOpens(clicks[..|clicks| - 1], user);
    }
  }

  /** So one tap on the menu button shows the "close" icon while the menu
      stays hidden. */
  lemma MenuButtonShowsNothing(user: Option<UserJson>)
    ensures After(ButtonIcon, [MenuButton])
    ensures MobileNavShown(After(NavOpenAsWritten, [MenuButton]), user).None?
  {
    MobileNavNeverOpens([MenuButton], user);
  }

  /** The evident intent: one `isOpen` shared by the button and the menu. The
      button flips it; a link or Logout in the menu closes it. */
  function MenuStep(open: bool, c: MenuClick): bool {
    if c == MenuButton then !open else false
  }

  /** How many button clicks end the run, after its last link or Logout. */
  function TrailingTaps(clicks: seq<MenuClick>): nat
    decreases |clicks|
  {
    if clicks == [] || clicks[|clicks| - 1] != MenuButton then 0
    else TrailingTaps(clicks[..|clicks| - 1]) + 1
  }

  /** With the shared state, the menu is open exactly when the button was
      tapped an odd number of times since the menu last closed through a
      link or Logout, and it then shows the links. */
  lemma {:induction false} MenuOpenAfter(clicks: seq<MenuClick>, user: Option<UserJson>)
    ensures After(MenuStep, clicks) <==> TrailingTaps(clicks) % 2 == 1
    ensures After(MenuStep, clicks) ==> MobileNavShown(After(MenuStep, clicks), user) == Some(TopNavLinks(user))
    decreases |clicks|
  {
    if clicks != [] {
      MenuOpenAfter(clicks[..|clicks| - 1], user);
    }
  }

  /** In particular the first tap opens the menu with the icon to match. */
  lemma MenuButtonOpensMenu(user: Option<UserJson>)
    ensures After(MenuStep, [MenuButton]) && After(ButtonIcon, [MenuButton])
    ensures MobileNavShown(After(MenuStep, [MenuButton]), user) == Some(TopNavLinks(user))
  {
    MenuOpenAfter([MenuButton], user);
    assert After(ButtonIcon, [MenuButton]) == ButtonIcon(After(ButtonIcon, []), MenuButton);
  }

  /** The auth context, the current location, and the mobile menu's shared
      `isOpen`. */
  class Session {
    var token: Option<string>
    var user: Option<UserJson>
    var path: string
    var menuOpen: bool

    constructor (token: Option<string>, user: Option<UserJson>, path: string)
      ensures this.token == token && this.user == user && this.path == path && !menuOpen
    {
      this.token := token;
      this.user := user;
      this.path := path;
      menuOpen := false;
    }

    /** What the mobile menu shows now. */
    function MobileMenu(): (shown: Option<seq<string>>)
      reads this
      ensures shown.Some? <==> menuOpen
    {
      MobileNavShown(menuOpen, user)
    }

    /** What Login and Signup do with a successful reply: `setToken`,
        `setUser`, then navigate to the role's landing page. */
    method SignIn(data: SessionJson)
      modifies this
      ensures token == data.token && user == data.user && path == LandingPath(RoleOf(data.user))
      ensures menuOpen == old(menuOpen)
    {
      token := data.token;
      user := data.user;
      path := LandingPath(RoleOf(data.user));
    }

    /** `logout` of the top bar. */
    method Logout()
      modifies this
      ensures token == None && user == None && path == "/login"
      ensures menuOpen == old(menuOpen)
      ensures Visit(path, token, user) == Show(Login)
    {
      token := None;
      user := None;
      path := "/login";
    }

    /** A tap on the menu button. */
    method TapMenuButton()
      modifies this
      ensures menuOpen == MenuStep(old(menuOpen), MenuButton) == !old(menuOpen)
      ensures token == old(token) && user == old(user) && path == old(path)
    {
      menuOpen := !menuOpen;
    }

    /** Following a link of the open mobile menu: navigate and close it. */
    method FollowMenuLink(link: string)
      requires menuOpen && link in TopNavLinks(user)
      modifies this
      ensures path == link && menuOpen == MenuStep(old(menuOpen), MenuLink) && !menuOpen
      ensures token == old(token) && user == old(user)
      ensures Truthy(token) ==> Visit(path, token, user).Show?
    {
      if Truthy(token) {
        NavLinksRender(token, user, link);
      }
      path := link;
      menuOpen := false;
    }

    /** `logout` of the mobile menu, which also closes the menu. */
    method MobileLogout()
      modifies this
      ensures token == None && user == None && path == "/login"
      ensures menuOpen == MenuStep(old(menuOpen), MenuLogout) && MobileMenu().None?
    {
      Logout();
      menuOpen := false;
    }
  }

  /** Once logged out, every guarded page sends the visitor to `/login`. */
  lemma LoggedOutIsSentToLogin(path: string, g: Guard, page: Page)
    requires RouteOf(path) == Some((g, page)) && g != Open
    ensures Visit(path, None, None) == Redirect("/login")
  {
  }
}
