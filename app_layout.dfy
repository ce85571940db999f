/** The application shell (App.tsx, repeated verbatim apart from import paths in src/App.tsx): the route table
    and the rule that hides the bottom navigation bar on full-screen pages. */
module AppLayout {
  import opened Options
  import opened Text

  /** `isChatDetail` */
  predicate IsChatDetail(path: string) {
    StartsWith(path, "/messages/") && path != "/messages"
  }

  /** `isProfileSubPage` */
  predicate IsProfileSubPage(path: string) {
    path == "/profile/edit" || path == "/settings" || path == "/support"
  }

  /** `hideNav` */
  predicate HideNav(path: string) {
    Contains(path, "/items/") || path == "/sell" || path == "/" || IsChatDetail(path) || IsProfileSubPage(path)
  }

  /** The content gets bottom padding (`pb-24`) exactly when the bar is rendered. */
  predicate HasBottomPadding(path: string) { !HideNav(path) }
  predicate ShowsBottomNav(path: string) { !HideNav(path) }

  datatype Screen =
    | Auth | Home | Saved | Messages | ChatDetail(conversationId: string) | Profile | EditProfile | Settings
    | Support | ItemDetail(itemId: string) | Sell

  datatype Outcome = Render(screen: Screen) | Redirect(target: string)

  /** A `:id` route parameter: one non-empty path segment. */
  predicate IsSegment(s: string) {
    s != [] && '/' !in s
  }

  /** The route table; anything else is `<Navigate to="/home" replace />`. */
  function Route(path: string): (r: Outcome)
    ensures r.Redirect? ==> r.target == "/home"
  {
    if path == "/" then Render(Auth)
    else if path == "/home" then Render(Home)
    else if path == "/saved" then Render(Saved)
    else if path == "/messages" then Render(Messages)
    else if StartsWith(path, "/messages/") && IsSegment(path[10..]) then Render(ChatDetail(path[10..]))
    else if path == "/profile" then Render(Profile)
    else if path == "/profile/edit" then Render(EditProfile)
    else if path == "/settings" then Render(Settings)
    else if path == "/support" then Render(Support)
    else if StartsWith(path, "/items/") && IsSegment(path[7..]) then Render(ItemDetail(path[7..]))
    else if path == "/sell" then Render(Sell)
    else Redirect("/home")
  }

  /** A screen's ids must be single segments for it to have a path. */
  predicate Addressable(s: Screen) {
    match s
    case ChatDetail(id) => IsSegment(id)
    case ItemDetail(id) => IsSegment(id)
    case _ => true
  }

  /** The path each screen is mounted at. */
  function PathOf(s: Screen): string {
    match s
    case Auth => "/"
    case Home => "/home"
    case Saved => "/saved"
    case Messages => "/messages"
    case ChatDetail(id) => "/messages/" + id
    case Profile => "/profile"
    case EditProfile => "/profile/edit"
    case Settings => "/settings"
    case Support => "/support"
    case ItemDetail(id) => "/items/" + id
    case Sell => "/sell"
  }

  /** Each screen's own path renders that screen. */
  lemma RouteOfPath(s: Screen)
    requires Addressable(s)
    ensures Route(PathOf(s)) == Render(s)
  {
    match s
    case ChatDetail(id) =>
      assert ("/messages/" + id)[10..] == id;
    case ItemDetail(id) =>
      var p := "/items/" + id;
      assert p[7..] == id;
      assert p != "/" && p != "/home" && p != "/saved" && p != "/messages" && p != "/sell" && !StartsWith(p, "/messages/")
      by {
        assert p[1] == 'i';
      }
      assert p != "/profile" && p != "/profile/edit" && p != "/settings" && p != "/support" by {
        assert p[1] == 'i';
      }
    case EditProfile =>
      var p := "/profile/edit";
      assert p[1] != "/messages/"[1];
    case Settings =>
      assert "/settings"[1] != "/messages/"[1];
    case Support =>
      assert "/support"[1] != "/messages/"[1];
    case _ =>
  }

  /** A rendered path is the path of the screen it renders: no two paths render the same screen. */
  lemma PathOfRoute(path: string)
    requires Route(path).Render?
    ensures PathOf(Route(path).screen) == path && Addressable(Route(path).screen)
  {
    if StartsWith(path, "/messages/") && IsSegment(path[10..]) {
      assert path == "/messages/" + path[10..];
    } else if StartsWith(path, "/items/") && IsSegment(path[7..]) {
      assert path == "/items/" + path[7..];
    }
  }

  /** The redirect lands on the home feed, which shows the bar. */
  lemma RedirectLandsHome(path: string)
    requires Route(path).Redirect?
    ensures Route(Route(path).target) == Render(Home) && ShowsBottomNav(Route(path).target)
  {
    NoItemsIn("/home");
  }

  /** "/items/" has a 't', so a path without one does not contain it. */
  lemma NoItemsIn(path: string)
    requires 't' !in path
    ensures !Contains(path, "/items/")
  {
    if Contains(path, "/items/") {
      ContainsHasChars(path, "/items/", 2);
    }
  }

  /** The bar is hidden on the sign-in, sell, item, chat, profile-edit, settings and support screens and shown on
      home, saved, messages and profile. */
  function HidesNav(s: Screen): bool {
    !(s.Home? || s.Saved? || s.Messages? || s.Profile?)
  }

  lemma NavFollowsScreen(path: string)
    requires Route(path).Render?
    ensures HideNav(path) <==> HidesNav(Route(path).screen)
  {
    var s := Route(path).screen;
    if !HidesNav(s) {
      NoItemsIn(path);
      assert |path| < 10;
    } else if s.ItemDetail? {
      ContainsAt(path, "/items/", 0);
    }
  }

  /** "/messages" itself keeps the bar; any chat under it hides it. */
  lemma MessagesKeepsNav(id: string)
    ensures ShowsBottomNav("/messages")
    ensures HideNav("/messages/" + id)
  {
    NoItemsIn("/messages");
    assert StartsWith("/messages/" + id, "/messages/");
  }
}
