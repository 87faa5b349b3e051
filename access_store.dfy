/**
 * The access store: tokens, tenant ids, permission codes, the accessible menu tree,
 * and the lock-screen state. Every action assigns exactly one field (lockScreen and
 * unlockScreen assign two).
 */
module AccessStore {
  import opened JsValues

  /** A menu record: its route path and its (possibly empty) children. */
  datatype Menu = Menu(name: string, path: string, children: seq<Menu>)

  /** A route record, kept only as a value the store holds. */
  datatype Route = Route(name: string, path: string)

  // ------------------------------------------------------------ menu search

  /**
   * `findMenu`: a `for` loop over siblings that returns a menu whose path matches,
   * else the first match inside its children, else continues with the next sibling.
   */
  function FindMenu(menus: seq<Menu>, path: string): (r: Option<Menu>)
    ensures r.Some? ==> r.value.path == path
    ensures r.Some? ==> r.value in Preorder(menus)
    decreases menus
  {
    if menus == [] then None
    else if menus[0].path == path then Some(menus[0])
    else
      assert menus[0] in menus;
      match FindMenu(menus[0].children, path)
      case Some(m) => Some(m)
      case None => FindMenu(menus[1..], path)
  }

  /** All menus of a forest in pre-order: a node, then its subtree, then later siblings. */
  function Preorder(menus: seq<Menu>): seq<Menu>
    decreases menus
  {
    if menus == [] then []
    else
      assert menus[0] in menus;
      [menus[0]] + Preorder(menus[0].children) + Preorder(menus[1..])
  }

  /** The first menu of a list that has the given path: the reference answer. */
  function FirstWithPath(s: seq<Menu>, path: string): Option<Menu> {
    if s == [] then None
    else if s[0].path == path then Some(s[0])
    else FirstWithPath(s[1..], path)
  }

  lemma {:induction false} FirstWithPathAppend(a: seq<Menu>, b: seq<Menu>, path: string)
    ensures FirstWithPath(a + b, path) ==
      if FirstWithPath(a, path).Some? then FirstWithPath(a, path) else FirstWithPath(b, path)
  {
    if a != [] {
      assert (a + b)[1..] == a[1..] + b;
      FirstWithPathAppend(a[1..], b, path);
    } else {
      assert a + b == b;
    }
  }

  lemma {:induction false} FirstWithPathNone(s: seq<Menu>, path: string)
    ensures FirstWithPath(s, path).None? <==> forall m :: m in s ==> m.path != path
  {
    if s != [] {
      FirstWithPathNone(s[1..], path);
      assert forall m :: m in s ==> m == s[0] || m in s[1..];
    }
  }

  /**
   * The search is a pre-order search that stops at the first hit: it returns exactly
   * the first menu with that path in the pre-order listing of the tree.
   */
  lemma {:induction false} FindMenuIsFirstInPreorder(menus: seq<Menu>, path: string)
    ensures FindMenu(menus, path) == FirstWithPath(Preorder(menus), path)
    decreases menus
  {
    if menus != [] {
      var head := menus[0];
      assert head in menus;
      FindMenuIsFirstInPreorder(head.children, path);
      FindMenuIsFirstInPreorder(menus[1..], path);
      var kids := Preorder(head.children);
      var rest := Preorder(menus[1..]);
      assert Preorder(menus) == [head] + (kids + rest);
      FirstWithPathAppend(kids, rest, path);
    }
  }

  /** `getMenuByPath` is undefined exactly when no menu anywhere in the tree has that path. */
  lemma FindMenuNoneIff(menus: seq<Menu>, path: string)
    ensures FindMenu(menus, path).None? <==> forall m :: m in Preorder(menus) ==> m.path != path
  {
    FindMenuIsFirstInPreorder(menus, path);
    FirstWithPathNone(Preorder(menus), path);
  }

  // ------------------------------------------------------------ the store

  class Store {
    var accessCodes: seq<string>
    var accessMenus: seq<Menu>
    var accessRoutes: seq<Route>
    var accessToken: Option<string>
    var expiresAt: Option<int>
    var isAccessChecked: bool
    var isLockScreen: bool
    var lockScreenPassword: Option<string>
    var loginExpired: bool
    var refreshToken: Option<string>
    var tenantId: Option<int>
    var visitTenantId: Option<int>

    /** The initial state: no tokens, no tenant, nothing accessible, nothing locked. */
    constructor ()
      ensures accessCodes == [] && accessMenus == [] && accessRoutes == []
      ensures accessToken == None && refreshToken == None && expiresAt == None
      ensures tenantId == None && visitTenantId == None
      ensures !isAccessChecked && !isLockScreen && !loginExpired && lockScreenPassword == None
    {
      accessCodes, accessMenus, accessRoutes := [], [], [];
      accessToken, refreshToken, expiresAt := None, None, None;
      tenantId, visitTenantId := None, None;
      isAccessChecked, isLockScreen, loginExpired := false, false, false;
      lockScreenPassword := None;
    }

    function GetMenuByPath(path: string): (r: Option<Menu>)
      reads this
      ensures r.Some? ==> r.value.path == path && r.value in Preorder(accessMenus)
    {
      FindMenu(accessMenus, path)
    }

    method LockScreen(password: string)
      modifies this`isLockScreen, this`lockScreenPassword
      ensures isLockScreen && lockScreenPassword == Some(password)
    {
      isLockScreen := true;
      lockScreenPassword := Some(password);
    }

    method UnlockScreen()
      modifies this`isLockScreen, this`lockScreenPassword
      ensures !isLockScreen && lockScreenPassword == None
    {
      isLockScreen := false;
      lockScreenPassword := None;
    }

    method SetAccessCodes(codes: seq<string>)
      modifies this`accessCodes
      ensures accessCodes == codes
    {
      accessCodes := codes;
    }

    method SetAccessMenus(menus: seq<Menu>)
      modifies this`accessMenus
      ensures accessMenus == menus
    {
      accessMenus := menus;
    }

    method SetAccessRoutes(routes: seq<Route>)
      modifies this`accessRoutes
      ensures accessRoutes == routes
    {
      accessRoutes := routes;
    }

    method SetAccessToken(token: Option<string>)
      modifies this`accessToken
      ensures accessToken == token
    {
      accessToken := token;
    }

    method SetExpiresAt(at: Option<int>)
      modifies this`expiresAt
      ensures expiresAt == at
    {
      expiresAt := at;
    }

    method SetIsAccessChecked(checked: bool)
      modifies this`isAccessChecked
      ensures isAccessChecked == checked
    {
      isAccessChecked := checked;
    }

    method SetLoginExpired(expired: bool)
      modifies this`loginExpired
      ensures loginExpired == expired
    {
      loginExpired := expired;
    }

    method SetRefreshToken(token: Option<string>)
      modifies this`refreshToken
      ensures refreshToken == token
    {
      refreshToken := token;
    }

    method SetTenantId(id: Option<int>)
      modifies this`tenantId
      ensures tenantId == id
    {
      tenantId := id;
    }

    /** The visiting tenant is set to a number, never to null. */
    method SetVisitTenantId(id: int)
      modifies this`visitTenantId
      ensures visitTenantId == Some(id)
    {
      visitTenantId := Some(id);
    }

    /** Same effect as `SetAccessToken`: only the access token changes. */
    method SetToken(token: Option<string>)
      modifies this`accessToken
      ensures accessToken == token
    {
      accessToken := token;
    }
  }
}

/** The notification store: the unread-notification counter shown in the header. */
module NotificationStore {

  class Store {
    var unreadCount: int

    constructor ()
      ensures unreadCount == 0
    {
      unreadCount := 0;
    }

    method SetUnreadCount(count: int)
      modifies this
      ensures unreadCount == count
    {
      unreadCount := count;
    }

    /** Sets the counter to 0 whatever it was, so clearing twice is the same as once. */
    method ClearUnread()
      modifies this
      ensures unreadCount == 0
    {
      unreadCount := 0;
    }
  }
}
