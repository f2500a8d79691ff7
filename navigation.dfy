/** Role-based routing (front/src/components/Routes/Routes.tsx). A route
    without `exact` matches its path and every path below it, by whole
    leading segments; letters are compared exactly. */
module Routes {
  import opened Wrappers
  import opened Auth

  datatype Page = UserListPage | MessageListPage | UserEditPage | MyPlacesPage | FreePlacesPage | PrivateOfficePage | Error404Page

  /** A route `path` without parameters matches the location and every path below it. */
  predicate MatchesPath(location: string, path: string) {
    location == path || (|location| > |path| && location[..|path|] == path && location[|path|] == '/')
  }

  /** `/admin/user/:id`: the prefix followed by a non-empty segment. */
  predicate MatchesUserEdit(location: string) {
    var prefix := "/admin/user/";
    |location| > |prefix| && location[..|prefix|] == prefix && location[|prefix|] != '/'
  }

  /** The page the admin switch renders, for an administrator only. */
  function AdminSwitch(role: int, location: string): (p: Option<Page>)
    ensures role != ADMIN ==> p.None?
    ensures p.Some? ==> p.value in {UserListPage, MessageListPage, UserEditPage}
  {
    if role != ADMIN then None
    else if MatchesPath(location, "/admin/users") then Some(UserListPage)
    else if MatchesPath(location, "/admin/messages") then Some(MessageListPage)
    else if MatchesUserEdit(location) then Some(UserEditPage)
    else None
  }

  /** The page the user switch renders: the first matching route, else 404. */
  function UserSwitch(role: int, location: string): (p: Page)
    ensures p == MyPlacesPage ==> role <= PLACE_OWNER
    ensures p in {MyPlacesPage, FreePlacesPage, PrivateOfficePage, Error404Page}
  {
    if role <= PLACE_OWNER && MatchesPath(location, "/place/mylist") then MyPlacesPage
    else if MatchesPath(location, "/place/free") then FreePlacesPage
    else if MatchesPath(location, "/user/lk") then PrivateOfficePage
    else Error404Page
  }

  /** What `Routes` renders: the admin switch (when shown and matching) and
      then, always, the user switch. */
  function RenderedPages(role: int, location: string): (pages: seq<Page>)
    ensures 1 <= |pages| <= 2 && pages[|pages| - 1] == UserSwitch(role, location)
    ensures |pages| == 2 <==> AdminSwitch(role, location).Some?
    ensures |pages| == 2 ==> pages[0] == AdminSwitch(role, location).value
  {
    (if AdminSwitch(role, location).Some? then [AdminSwitch(role, location).value] else []) + [UserSwitch(role, location)]
  }

  /** The redirect at the root: by role, and nowhere else. */
  function Redirect(role: int, location: string): (target: Option<string>)
    ensures location != "/" ==> target.None?
    ensures location == "/" && role == ADMIN ==> target == Some("/admin/users")
    ensures location == "/" && role == PLACE_OWNER ==> target == Some("/place/mylist")
    ensures location == "/" && role != ADMIN && role != PLACE_OWNER ==> target == Some("/place/free")
  {
    if location != "/" then None
    else if role == ADMIN then Some("/admin/users")
    else if role == PLACE_OWNER then Some("/place/mylist")
    else Some("/place/free")
  }

  /** Only an administrator reaches an administration page. */
  lemma AdminPagesOnlyForAdmin(role: int, location: string)
    ensures (UserListPage in RenderedPages(role, location) || MessageListPage in RenderedPages(role, location)
             || UserEditPage in RenderedPages(role, location)) ==> role == ADMIN
  {
  }

  /** The owner-place page is rendered for a role up to place owner only;
      the free-place page and the private office for every role. */
  lemma PageAvailability(role: int)
    ensures MyPlacesPage in RenderedPages(role, "/place/mylist") <==> role <= PLACE_OWNER
    ensures RenderedPages(role, "/place/free") == [FreePlacesPage]
    ensures RenderedPages(role, "/user/lk") == [PrivateOfficePage]
  {
    assert !MatchesPath("/place/mylist", "/place/free");
    assert !MatchesPath("/user/lk", "/place/mylist");
    assert !MatchesPath("/user/lk", "/place/free");
  }

  /** A place owner at an administration page and a customer at the
      owner-place page see only the 404 page. */
  lemma ForbiddenPagesGive404()
    ensures RenderedPages(PLACE_OWNER, "/admin/users") == [Error404Page]
    ensures RenderedPages(CUSTOMER, "/place/mylist") == [Error404Page]
  {
    assert !MatchesPath("/admin/users", "/place/free");
    assert !MatchesPath("/admin/users", "/user/lk");
    assert !MatchesPath("/place/mylist", "/place/free");
    assert !MatchesPath("/place/mylist", "/user/lk");
  }

  /** As written, an administrator at an administration page gets the page
      AND the 404 page beneath it: the user switch knows no admin path. */
  lemma AdminPageAlsoRenders404()
    ensures RenderedPages(ADMIN, "/admin/users") == [UserListPage, Error404Page]
  {
    assert !MatchesPath("/admin/users", "/place/mylist");
    assert !MatchesPath("/admin/users", "/place/free");
    assert !MatchesPath("/admin/users", "/user/lk");
  }

  /** The evident intent: the user switch's 404 applies only when no admin route matched. */
  function RenderedPagesIntended(role: int, location: string): (pages: seq<Page>)
    ensures |pages| == 1
    ensures pages[0] == Error404Page <==> AdminSwitch(role, location).None? && UserSwitch(role, location) == Error404Page
  {
    if AdminSwitch(role, location).Some? then [AdminSwitch(role, location).value] else [UserSwitch(role, location)]
  }

  /** Where each menu path leads, with the correction. */
  lemma MenuTargets(role: int)
    ensures role == ADMIN ==> RenderedPagesIntended(role, "/admin/users") == [UserListPage]
    ensures role == ADMIN ==> RenderedPagesIntended(role, "/admin/messages") == [MessageListPage]
    ensures role <= PLACE_OWNER ==> RenderedPagesIntended(role, "/place/mylist") == [MyPlacesPage]
    ensures RenderedPagesIntended(role, "/place/free") == [FreePlacesPage]
    ensures RenderedPagesIntended(role, "/user/lk") == [PrivateOfficePage]
  {
    assert "/admin/messages"[..12] != "/admin/users" by {
      assert "/admin/messages"[7] != "/admin/users"[7];
    }
    assert !MatchesPath("/place/mylist", "/admin/users") && !MatchesPath("/place/mylist", "/admin/messages");
    assert !MatchesPath("/place/free", "/admin/users") && !MatchesPath("/place/free", "/admin/messages");
    assert !MatchesPath("/user/lk", "/admin/users") && !MatchesPath("/user/lk", "/admin/messages");
    assert !MatchesPath("/user/lk", "/place/mylist") && !MatchesPath("/user/lk", "/place/free");
    assert !MatchesPath("/place/free", "/place/mylist");
    assert !MatchesUserEdit("/place/mylist") by {
      assert "/place/mylist"[1] != "/admin/user/"[1];
    }
  }

  /** With the correction, exactly one page is shown and it is a 404 only
      when no route accepts the location; away from the admin pages the
      rendering is unchanged. */
  lemma IntendedRendering(role: int, location: string)
    ensures (RenderedPagesIntended(role, location) == [Error404Page]) <==> (AdminSwitch(role, location).None? && UserSwitch(role, location) == Error404Page)
    ensures AdminSwitch(role, location).None? ==> RenderedPagesIntended(role, location) == RenderedPages(role, location)
    ensures RenderedPagesIntended(ADMIN, "/admin/users") == [UserListPage]
  {
  }
}

/** The header menu (front/src/components/Layout/Header/Header.tsx). */
module Header {
  import opened Wrappers
  import opened Auth
  import opened Routes

  /** A menu entry: an item with its key and label, or a submenu of items. */
  datatype MenuEntry = Item(key: string, text: string) | SubMenu(key: string, title: string, items: seq<MenuEntry>)

  const ADMIN_MENU := SubMenu("admin", "Администрирование", [Item("/admin/users", "Пользователи"), Item("/admin/messages", "Сообщения")])
  const MY_PLACES_ITEM := Item("/place/mylist", "Места")
  const COMMON_ITEMS := [Item("/place/free", "Свободные места"), Item("/user/lk", "Личный кабинет"), Item("logout", "Выход")]

  /** The menu for a role. */
  function MenuItems(role: int): (m: seq<MenuEntry>)
    ensures ADMIN_MENU in m <==> role == ADMIN
    ensures MY_PLACES_ITEM in m <==> role <= PLACE_OWNER
    ensures forall e :: e in COMMON_ITEMS ==> e in m
    ensures |m| >= 3 && m[|m| - 3..] == COMMON_ITEMS
  {
    (if role == ADMIN then [ADMIN_MENU] else []) + (if role <= PLACE_OWNER then [MY_PLACES_ITEM] else []) + COMMON_ITEMS
  }

  /** The keys a click can produce: the items, and the items of submenus. */
  function ClickKeys(m: seq<MenuEntry>): seq<string> {
    if m == [] then []
    else (match m[0] case Item(k, _) => [k] case SubMenu(_, _, items) => ClickKeys(items)) + ClickKeys(m[1..])
  }

  /** What a click does. */
  datatype Click = DispatchLogout | Navigate(path: string)

  /** `onMenuClick`: `logout` signs out, every other key is a path to go to. */
  function OnMenuClick(key: string): (c: Click)
    ensures c == DispatchLogout <==> key == "logout"
    ensures c.Navigate? ==> c.path == key
  {
    if key == "logout" then DispatchLogout else Navigate(key)
  }

  /** The keys of a role's menu. */
  lemma MenuKeys(role: int)
    ensures ClickKeys(MenuItems(role)) ==
              (if role == ADMIN then ["/admin/users", "/admin/messages"] else []) +
              (if role <= PLACE_OWNER then ["/place/mylist"] else []) +
              ["/place/free", "/user/lk", "logout"]
  {
    var a := if role == ADMIN then [ADMIN_MENU] else [];
    var b := if role <= PLACE_OWNER then [MY_PLACES_ITEM] else [];
    ClickKeysAppend(a + b, COMMON_ITEMS);
    ClickKeysAppend(a, b);
    assert ClickKeys(ADMIN_MENU.items) == ["/admin/users", "/admin/messages"] by {
      assert ADMIN_MENU.items[1..] == [Item("/admin/messages", "Сообщения")];
    }
    assert ClickKeys(COMMON_ITEMS) == ["/place/free", "/user/lk", "logout"] by {
      assert COMMON_ITEMS[1..] == [Item("/user/lk", "Личный кабинет"), Item("logout", "Выход")];
      assert COMMON_ITEMS[1..][1..] == [Item("logout", "Выход")];
    }
  }

  /** Every entry a role's menu offers leads to a page rendered for that
      role (with the routing correction): the menu never offers a 404. */
  lemma MenuLeadsToPages(role: int, key: string)
    requires key in ClickKeys(MenuItems(role))
    ensures OnMenuClick(key).Navigate? ==> RenderedPagesIntended(role, key) != [Error404Page]
  {
    MenuKeyCases(role, key);
    MenuTargets(role);
  }

  /** A key of a role's menu is one of the common keys, the owner-place key
      for a role up to place owner, or an administration key for an administrator. */
  lemma MenuKeyCases(role: int, key: string)
    requires key in ClickKeys(MenuItems(role))
    ensures key == "logout" || key == "/place/free" || key == "/user/lk"
            || (key == "/place/mylist" && role <= PLACE_OWNER)
            || (role == ADMIN && (key == "/admin/users" || key == "/admin/messages"))
  {
    MenuKeys(role);
  }

  lemma {:induction false} ClickKeysAppend(a: seq<MenuEntry>, b: seq<MenuEntry>)
    ensures ClickKeys(a + b) == ClickKeys(a) + ClickKeys(b)
  {
    if a == [] {
      assert a + b == b;
    } else {
      assert (a + b)[0] == a[0] && (a + b)[1..] == a[1..] + b;
      ClickKeysAppend(a[1..], b);
    }
  }
}
