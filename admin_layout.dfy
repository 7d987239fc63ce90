/**
  The admin shell (`src/components/admin/AdminLayout.jsx`): the sidebar's menu,
  the rule that marks a menu path active for the current location, the page
  title looked up from the menu, and the user name and avatar fallbacks.
*/
module AdminLayout {
  import opened Js
  import opened Text

  /** A sidebar entry (`caption` is its `label`); a group has children and no `path` of its own. */
  datatype MenuItem = MenuItem(id: string, caption: string, path: Option<string>, children: seq<MenuItem>)

  /** `menuItems`, in order. */
  const MenuItems: seq<MenuItem> := [
    MenuItem("dashboard", "仪表盘", Some("/admin"), []),
    MenuItem("rbac", "RBAC权限管理", None, [
      MenuItem("roles", "角色管理", Some("/admin/roles"), []),
      MenuItem("users", "用户管理", Some("/admin/users"), []),
      MenuItem("permissions", "权限管理", Some("/admin/permissions"), [])]),
    MenuItem("kb", "知识库管理", Some("/admin/kb"), [])]

  /** The string `startsWith` searches for: an absent path is converted to `"undefined"`. */
  function SearchString(path: Option<string>): string {
    path.GetOr("undefined")
  }

  /** `isActivePath(path)`: `/admin` only at exactly `/admin`, any other path as a
      plain prefix of the location. */
  predicate IsActivePath(pathname: string, path: Option<string>) {
    if path == Some("/admin") then pathname == "/admin"
    else StartsWith(pathname, SearchString(path))
  }

  /** The rule in both its cases, and the consequence for a path-less group: no
      location that starts with `/` makes it active. */
  lemma ActivePathRule(pathname: string, path: Option<string>)
    ensures path == Some("/admin") ==> (IsActivePath(pathname, path) <==> pathname == "/admin")
    ensures path.Some? && path.value != "/admin" ==>
      (IsActivePath(pathname, path) <==> |path.value| <= |pathname| && pathname[..|path.value|] == path.value)
    ensures path.None? && |pathname| > 0 && pathname[0] == '/' ==> !IsActivePath(pathname, path)
  {
    if path.None? && |pathname| > 0 && pathname[0] == '/' && |"undefined"| <= |pathname| {
      assert pathname[..9][0] == '/';
    }
  }

  /** The prefix match is plain: a menu path is active under any extension of it,
      `/admin/kb` at `/admin/kbx` included. */
  lemma PrefixMatchIsPlain(path: string, suffix: string)
    requires path != "/admin"
    ensures IsActivePath(path + suffix, Some(path))
  {
    assert (path + suffix)[..|path|] == path;
  }

  /** The first item, in order, whose own path is active; `Array.prototype.find`. */
  function FindActive(items: seq<MenuItem>, pathname: string): (r: Option<MenuItem>)
    ensures r.None? <==> forall i :: 0 <= i < |items| ==> !IsActivePath(pathname, items[i].path)
    ensures r.Some? ==>
      exists i :: 0 <= i < |items| && items[i] == r.value && IsActivePath(pathname, items[i].path)
                  && forall j :: 0 <= j < i ==> !IsActivePath(pathname, items[j].path)
  {
    if items == [] then None
    else if IsActivePath(pathname, items[0].path) then Some(items[0])
    else
      var rest := FindActive(items[1..], pathname);
      assert forall i :: 1 <= i < |items| ==> items[i] == items[1..][i - 1];
      if rest.Some? then
        var k :| 0 <= k < |items[1..]| && items[1..][k] == rest.value && IsActivePath(pathname, items[1..][k].path)
          && forall j :: 0 <= j < k ==> !IsActivePath(pathname, items[1..][j].path);
        assert items[k + 1] == rest.value && IsActivePath(pathname, items[k + 1].path);
        assert forall j :: 0 <= j < k + 1 ==> !IsActivePath(pathname, items[j].path);
        rest
      else rest
  }

  const DefaultTitle := "仪表盘"

  /** The header title: `menuItems.find(item => isActivePath(item.path))?.label || '仪表盘'`. */
  function PageTitle(pathname: string): (t: string)
    ensures t == DefaultTitle || exists i :: 0 <= i < |MenuItems| && t == MenuItems[i].caption
    ensures FindActive(MenuItems, pathname).None? ==> t == DefaultTitle
    ensures FindActive(MenuItems, pathname).Some? ==>
      t == (if FindActive(MenuItems, pathname).value.caption == "" then DefaultTitle
            else FindActive(MenuItems, pathname).value.caption)
  {
    var found := FindActive(MenuItems, pathname);
    StringOr(if found.Some? then Some(found.value.caption) else None, DefaultTitle)
  }

  /** At `/admin` the dashboard item is found; on any other location below
      `/admin/` that is not under `/admin/kb` nothing is found and the title falls
      back to the same text. The role, user and permission pages are of this kind. */
  lemma TitleFallsBackBelowAdmin(pathname: string)
    requires pathname == "/admin" ||
      (|pathname| >= 7 && pathname[..7] == "/admin/" && !StartsWith(pathname, "/admin/kb"))
    ensures PageTitle(pathname) == DefaultTitle
  {
    if pathname != "/admin" {
      ActivePathRule(pathname, None);
      assert !IsActivePath(pathname, MenuItems[1].path) by {
        assert pathname[0] == pathname[..7][0] == '/';
      }
      assert FindActive(MenuItems, pathname).None?;
    }
  }

  /** A location `/admin/<name>` whose name has two or more characters and does
      not start with `k` shows the default title. */
  lemma ChildPageTitle(pathname: string)
    requires |pathname| >= 9 && pathname[..7] == "/admin/" && pathname[7] != 'k'
    ensures PageTitle(pathname) == DefaultTitle
  {
    assert !StartsWith(pathname, "/admin/kb") by {
      assert pathname[..9][7] == pathname[7];
    }
    TitleFallsBackBelowAdmin(pathname);
  }

  /** The role, user and permission pages show the default title, not their own labels. */
  lemma RbacPagesShowDefaultTitle()
    ensures PageTitle("/admin/roles") == DefaultTitle
    ensures PageTitle("/admin/users") == DefaultTitle
    ensures PageTitle("/admin/permissions") == DefaultTitle
  {
    ChildPageTitle("/admin/roles");
    ChildPageTitle("/admin/users");
    ChildPageTitle("/admin/permissions");
  }

  /** Under `/admin/kb`, and under any location that merely starts with it, the
      title is the knowledge-base label. */
  lemma TitleUnderKb(pathname: string)
    requires StartsWith(pathname, "/admin/kb")
    ensures PageTitle(pathname) == "知识库管理"
  {
    assert pathname != "/admin" by {
      assert |pathname| >= 9;
    }
    ActivePathRule(pathname, None);
    assert pathname[0] == pathname[..9][0] == '/';
    assert !IsActivePath(pathname, MenuItems[0].path);
    assert !IsActivePath(pathname, MenuItems[1].path);
    assert IsActivePath(pathname, MenuItems[2].path);
  }

  /** The top-level items followed, each in place, by its children: the order the
      sidebar lists them. */
  function Flatten(items: seq<MenuItem>): seq<MenuItem> {
    if items == [] then [] else [items[0]] + items[0].children + Flatten(items[1..])
  }

  /** The header title looked up over every sidebar entry, children included, so a
      page reached through a group shows its own label. */
  function IntendedPageTitle(pathname: string): string {
    var found := FindActive(Flatten(MenuItems), pathname);
    StringOr(if found.Some? then Some(found.value.caption) else None, DefaultTitle)
  }

  /** Flattening three entries lists each followed by its children. */
  lemma FlattenThree(x: MenuItem, y: MenuItem, z: MenuItem)
    ensures Flatten([x, y, z]) == [x] + x.children + ([y] + y.children + ([z] + z.children + []))
  {
    assert [z][1..] == [];
    assert Flatten([z]) == [z] + z.children + [];
    assert [y, z][1..] == [z];
    assert Flatten([y, z]) == [y] + y.children + Flatten([z]);
    assert [x, y, z][1..] == [y, z];
  }

  /** The sidebar order: dashboard, the RBAC group, its three pages, then the knowledge base. */
  lemma FlatMenu()
    ensures Flatten(MenuItems) == [MenuItems[0], MenuItems[1]] + MenuItems[1].children + [MenuItems[2]]
  {
    var x, y, z := MenuItems[0], MenuItems[1], MenuItems[2];
    assert MenuItems == [x, y, z];
    FlattenThree(x, y, z);
    assert x.children == [] && z.children == [];
    assert [x] + [] + ([y] + y.children + ([z] + [] + [])) == [x, y] + y.children + [z];
  }

  /** A location that differs from a menu path at a position both have is not under it. */
  lemma NotActiveAt(pathname: string, path: string, k: nat)
    requires path != "/admin" && k < |path| && k < |pathname| && pathname[k] != path[k]
    ensures !IsActivePath(pathname, Some(path))
  {
    if |path| <= |pathname| {
      assert pathname[..|path|][k] == pathname[k];
    }
  }

  /** `find` passes over an entry that is not active. */
  lemma FindSkips(items: seq<MenuItem>, pathname: string)
    requires items != [] && !IsActivePath(pathname, items[0].path)
    ensures FindActive(items, pathname) == FindActive(items[1..], pathname)
  {
  }

  /** The dashboard and group entries are never active on a child page. */
  lemma ChildPagePassesTopItems(pathname: string)
    requires |pathname| > 7 && pathname[..7] == "/admin/"
    ensures FindActive(Flatten(MenuItems), pathname) == FindActive(Flatten(MenuItems)[2..], pathname)
  {
    var flat := Flatten(MenuItems);
    FlatMenu();
    assert flat[0].path == Some("/admin");
    assert flat[1].path == None;
    ActivePathRule(pathname, None);
    assert pathname[0] == pathname[..7][0];
    FindSkips(flat, pathname);
    assert flat[1..][1..] == flat[2..];
    FindSkips(flat[1..], pathname);
  }

  /** The entries after the group, in order, with their paths and labels. */
  lemma FlatTail()
    ensures var t := Flatten(MenuItems)[2..];
      && |t| == 4
      && t[0].path == Some("/admin/roles") && t[0].caption == "角色管理"
      && t[1].path == Some("/admin/users") && t[1].caption == "用户管理"
      && t[2].path == Some("/admin/permissions") && t[2].caption == "权限管理"
      && t[3].path == Some("/admin/kb") && t[3].caption == "知识库管理"
  {
    FlatMenu();
    var y, z := MenuItems[1], MenuItems[2];
    assert Flatten(MenuItems)[2..] == y.children + [z];
  }

  /** `find` stops at an active first entry. */
  lemma FindStops(items: seq<MenuItem>, pathname: string)
    requires items != [] && IsActivePath(pathname, items[0].path)
    ensures FindActive(items, pathname) == Some(items[0])
  {
  }

  /** The corrected title is the label of the entry the lookup finds, when it has one. */
  lemma IntendedTitleOfFound(pathname: string, item: MenuItem)
    requires FindActive(Flatten(MenuItems), pathname) == Some(item) && item.caption != ""
    ensures IntendedPageTitle(pathname) == item.caption
  {
  }

  /** The four entries after the group, as `FlatTail` lists their paths. */
  predicate TailPaths(t: seq<MenuItem>) {
    && |t| == 4
    && t[0].path == Some("/admin/roles") && t[1].path == Some("/admin/users")
    && t[2].path == Some("/admin/permissions") && t[3].path == Some("/admin/kb")
  }

  /** The role page stops at the first of those entries. */
  lemma RolesLookup(t: seq<MenuItem>)
    requires TailPaths(t)
    ensures FindActive(t, "/admin/roles") == Some(t[0])
  {
    assert StartsWith("/admin/roles", "/admin/roles");
    FindStops(t, "/admin/roles");
  }

  /** The user page passes the role entry and stops at the second. */
  lemma UsersLookup(t: seq<MenuItem>)
    requires TailPaths(t)
    ensures FindActive(t, "/admin/users") == Some(t[1])
  {
    NotActiveAt("/admin/users", "/admin/roles", 7);
    FindSkips(t, "/admin/users");
    assert StartsWith("/admin/users", "/admin/users");
    FindStops(t[1..], "/admin/users");
  }

  /** The permission page passes the first two entries and stops at the third. */
  lemma PermissionsLookup(t: seq<MenuItem>)
    requires TailPaths(t)
    ensures FindActive(t, "/admin/permissions") == Some(t[2])
  {
    NotActiveAt("/admin/permissions", "/admin/roles", 7);
    FindSkips(t, "/admin/permissions");
    NotActiveAt("/admin/permissions", "/admin/users", 7);
    FindSkips(t[1..], "/admin/permissions");
    assert StartsWith("/admin/permissions", "/admin/permissions");
    FindStops(t[1..][1..], "/admin/permissions");
  }

  /** The knowledge base passes the three child pages and stops at the last entry. */
  lemma KbLookup(t: seq<MenuItem>)
    requires TailPaths(t)
    ensures FindActive(t, "/admin/kb") == Some(t[3])
  {
    NotActiveAt("/admin/kb", "/admin/roles", 7);
    FindSkips(t, "/admin/kb");
    NotActiveAt("/admin/kb", "/admin/users", 7);
    FindSkips(t[1..], "/admin/kb");
    NotActiveAt("/admin/kb", "/admin/permissions", 7);
    FindSkips(t[1..][1..], "/admin/kb");
    assert StartsWith("/admin/kb", "/admin/kb");
    FindStops(t[1..][1..][1..], "/admin/kb");
  }

  /** With the children searched, the role page shows its own label. */
  lemma IntendedRolesTitle()
    ensures IntendedPageTitle("/admin/roles") == "角色管理"
  {
    var t := Flatten(MenuItems)[2..];
    FlatTail();
    RolesLookup(t);
    ChildPagePassesTopItems("/admin/roles");
    IntendedTitleOfFound("/admin/roles", t[0]);
  }

  /** The user page shows its own label. */
  lemma IntendedUsersTitle()
    ensures IntendedPageTitle("/admin/users") == "用户管理"
  {
    var t := Flatten(MenuItems)[2..];
    FlatTail();
    UsersLookup(t);
    ChildPagePassesTopItems("/admin/users");
    IntendedTitleOfFound("/admin/users", t[1]);
  }

  /** The permission page shows its own label. */
  lemma IntendedPermissionsTitle()
    ensures IntendedPageTitle("/admin/permissions") == "权限管理"
  {
    var t := Flatten(MenuItems)[2..];
    FlatTail();
    PermissionsLookup(t);
    ChildPagePassesTopItems("/admin/permissions");
    IntendedTitleOfFound("/admin/permissions", t[2]);
  }

  /** Under the knowledge base the corrected title is the same label as the as-written one. */
  lemma IntendedKbTitle()
    ensures IntendedPageTitle("/admin/kb") == "知识库管理"
  {
    var t := Flatten(MenuItems)[2..];
    FlatTail();
    KbLookup(t);
    ChildPagePassesTopItems("/admin/kb");
    IntendedTitleOfFound("/admin/kb", t[3]);
  }

  /** At the dashboard the corrected lookup agrees with the as-written one. */
  lemma IntendedDashboardTitle()
    ensures IntendedPageTitle("/admin") == PageTitle("/admin") == DefaultTitle
  {
    FlatMenu();
    TitleFallsBackBelowAdmin("/admin");
    assert Flatten(MenuItems)[0].path == Some("/admin");
  }

  /** The signed-in user, as far as the layout reads it. */
  datatype User = User(username: Option<string>)

  /** The avatar: `user?.username?.charAt(0).toUpperCase() || 'U'`. */
  function AvatarLetter(user: Option<User>): (r: string)
    ensures user.None? || user.value.username.None? || user.value.username.value == "" ==> r == "U"
    ensures user.Some? && user.value.username.Some? && user.value.username.value != "" ==>
      r == [UpperChar(user.value.username.value[0])]
  {
    var initial := if user.Some? && user.value.username.Some? then Some(UpperFirst(user.value.username.value)) else None;
    StringOr(initial, "U")
  }

  /** The name: `user?.username || '管理员'`. */
  function DisplayName(user: Option<User>): (r: string)
    ensures user.None? || user.value.username.None? || user.value.username.value == "" ==> r == "管理员"
    ensures user.Some? && user.value.username.Some? && user.value.username.value != "" ==>
      r == user.value.username.value
  {
    StringOr(if user.Some? then user.value.username else None, "管理员")
  }
}
