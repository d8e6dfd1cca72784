/** The navigation bar: which links are visible, which one is active, which
    auth control is shown, and the observer that keeps the current user in
    step with the provider's session. */
module Navigation {
  import opened AuthTypes
  import Strings

  // ---------------------------------------------------------------------
  // Links.
  // ---------------------------------------------------------------------

  /** A link of the bar; its icon is presentation only. */
  datatype NavItem = NavItem(name: string, href: string)

  const PublicNavigationItems: seq<NavItem> :=
    [NavItem("Home", "/"), NavItem("View Schools", "/schools")]
  const ProtectedNavigationItems: seq<NavItem> :=
    [NavItem("Add School", "/add-school")]

  /** The links shown: the protected ones follow the public ones when someone
      is signed in. */
  function NavigationItems(user: Option<User>): (items: seq<NavItem>)
    ensures PublicNavigationItems <= items
    ensures |items| > |PublicNavigationItems| <==> user.Some?
  {
    if user.Some? then PublicNavigationItems + ProtectedNavigationItems else PublicNavigationItems
  }

  function Hrefs(items: seq<NavItem>): (hrefs: seq<string>)
    ensures |hrefs| == |items|
    ensures forall i :: 0 <= i < |items| ==> hrefs[i] == items[i].href
  {
    if items == [] then [] else [items[0].href] + Hrefs(items[1..])
  }

  /** The public links always come first; the protected links are shown
      exactly when a user is present, and "/add-school" with them. */
  lemma NavigationItemsShape(user: Option<User>)
    ensures PublicNavigationItems <= NavigationItems(user)
    ensures user.Some? ==> NavigationItems(user)[|PublicNavigationItems|..] == ProtectedNavigationItems
    ensures user.None? ==> NavigationItems(user) == PublicNavigationItems
    ensures "/add-school" in Hrefs(NavigationItems(user)) <==> user.Some?
  {
    var items := NavigationItems(user);
    if user.Some? {
      assert Hrefs(items)[2] == "/add-school";
    } else {
      assert Hrefs(items) == ["/", "/schools"];
    }
  }

  /** No two visible links share a name (the list's React key) or a target. */
  lemma NavigationItemsDistinct(user: Option<User>)
    ensures forall i, j :: 0 <= i < j < |NavigationItems(user)| ==>
      NavigationItems(user)[i].name != NavigationItems(user)[j].name &&
      NavigationItems(user)[i].href != NavigationItems(user)[j].href
  {
  }

  /** A link is highlighted when the current path is its target. */
  function IsActive(pathname: string, item: NavItem): (active: bool)
    ensures active <==> pathname == item.href
  {
    pathname == item.href
  }

  /** The highlighted links, in order. */
  function ActiveItems(pathname: string, items: seq<NavItem>): (active: seq<NavItem>)
    ensures |active| <= |items|
    ensures forall k :: 0 <= k < |active| ==> active[k] in items && IsActive(pathname, active[k])
  {
    if items == [] then []
    else if IsActive(pathname, items[0]) then [items[0]] + ActiveItems(pathname, items[1..])
    else ActiveItems(pathname, items[1..])
  }

  /** With targets pairwise distinct, at most one link is highlighted, and
      one is exactly when the current path is among the targets. */
  lemma {:induction false} ActiveItemsAtMostOne(pathname: string, items: seq<NavItem>)
    requires forall i, j :: 0 <= i < j < |items| ==> items[i].href != items[j].href
    ensures |ActiveItems(pathname, items)| <= 1
    ensures |ActiveItems(pathname, items)| == 1 <==> pathname in Hrefs(items)
  {
    if items != [] {
      var tail := items[1..];
      ActiveItemsAtMostOne(pathname, tail);
      assert Hrefs(items) == [items[0].href] + Hrefs(tail);
    }
  }

  /** On the bar itself: at most one visible link is highlighted. */
  lemma OneActiveLink(pathname: string, user: Option<User>)
    ensures |ActiveItems(pathname, NavigationItems(user))| <= 1
    ensures |ActiveItems(pathname, NavigationItems(user))| == 1 <==> pathname in Hrefs(NavigationItems(user))
  {
    NavigationItemsDistinct(user);
    ActiveItemsAtMostOne(pathname, NavigationItems(user));
  }

  // ---------------------------------------------------------------------
  // The auth control and the user's label.
  // ---------------------------------------------------------------------

  datatype AuthControl = LoadingPlaceholder | LogoutButton | LoginButton

  /** The desktop bar: a placeholder while loading, then Logout for a user
      and Login otherwise. */
  function DesktopAuthControl(isLoading: bool, user: Option<User>): (c: AuthControl)
    ensures c == LogoutButton <==> !isLoading && user.Some?
    ensures c == LoginButton <==> !isLoading && user.None?
  {
    if isLoading then LoadingPlaceholder
    else if user.Some? then LogoutButton
    else LoginButton
  }

  /** The mobile panel: no control at all while loading. */
  function MobileAuthControl(isLoading: bool, user: Option<User>): (c: Option<AuthControl>)
    ensures c.Some? <==> !isLoading
    ensures c == Some(LogoutButton) <==> !isLoading && user.Some?
    ensures c == Some(LoginButton) <==> !isLoading && user.None?
  {
    if !isLoading then (if user.Some? then Some(LogoutButton) else Some(LoginButton)) else None
  }

  /** Desktop and mobile agree once loading is over, and while loading
      neither offers Login nor Logout. */
  lemma AuthControlsAgree(isLoading: bool, user: Option<User>)
    ensures !isLoading ==> MobileAuthControl(isLoading, user) == Some(DesktopAuthControl(isLoading, user))
    ensures isLoading ==>
      MobileAuthControl(isLoading, user) == None && DesktopAuthControl(isLoading, user) == LoadingPlaceholder
  {
  }

  /** The desktop label: the part of the email before the first '@'
      (`email?.split("@")[0]`); nothing when the user has no email. */
  function DesktopUserLabel(user: User): (name: Option<string>)
    ensures name.Some? <==> user.email.Some?
    ensures name.Some? ==> '@' !in name.value && name.value <= user.email.value
    ensures name.Some? && |name.value| < |user.email.value| ==>
      user.email.value[|name.value|] == '@'
  {
    if user.email.Some? then Some(Strings.BeforeFirst(user.email.value, '@')) else None
  }

  /** The mobile label: the whole email, which the desktop label is a
      prefix of. */
  function MobileUserLabel(user: User): (name: Option<string>)
    ensures name.Some? <==> DesktopUserLabel(user).Some?
    ensures name.Some? ==> DesktopUserLabel(user).value <= name.value
  {
    user.email
  }

  /** The two labels agree on an email without '@'. */
  lemma LabelsAgreeWithoutAt(user: User)
    requires user.email.Some? && '@' !in user.email.value
    ensures DesktopUserLabel(user) == MobileUserLabel(user)
  {
    Strings.BeforeFirstWhole(user.email.value, '@');
  }

  // ---------------------------------------------------------------------
  // The component's state and its events.
  // ---------------------------------------------------------------------

  class NavBar {
    var isOpen: bool
    var user: Option<User>
    var isLoading: bool
    /** Whether this component's effect (fetch + subscription) is set up. */
    var subscribed: bool
    /** Listeners registered on the shared auth client, this one included. */
    var activeSubscriptions: nat
    /** Initial fetches issued whose answer has not arrived yet. */
    var pendingFetches: nat
    /** Sign-outs issued whose `await` has not resumed yet. */
    var pendingSignOuts: nat
    /** Provider calls and router calls, oldest first. */
    var effects: seq<Effect>

    ghost predicate Valid()
      reads this
    {
      subscribed ==> activeSubscriptions >= 1
    }

    /** The state hooks' initial values: closed, no user, loading. */
    constructor (listenersBefore: nat)
      ensures Valid()
      ensures !isOpen && user == None && isLoading
      ensures !subscribed && activeSubscriptions == listenersBefore
      ensures pendingFetches == 0 && pendingSignOuts == 0 && effects == []
    {
      isOpen, user, isLoading := false, None, true;
      subscribed, activeSubscriptions := false, listenersBefore;
      pendingFetches, pendingSignOuts, effects := 0, 0, [];
    }

    /** The visible links for the current user. */
    function Items(): seq<NavItem>
      reads this
    {
      NavigationItems(user)
    }

    /** The effect runs: one fetch of the current user is issued and exactly
        one listener is registered. */
    method Mount()
      requires Valid() && !subscribed
      modifies this`subscribed, this`activeSubscriptions, this`pendingFetches
      ensures Valid() && subscribed
      ensures activeSubscriptions == old(activeSubscriptions) + 1
      ensures pendingFetches == old(pendingFetches) + 1
    {
      pendingFetches := pendingFetches + 1;
      activeSubscriptions := activeSubscriptions + 1;
      subscribed := true;
    }

    /** The effect's cleanup: this component's listener is removed. */
    method Unmount()
      requires Valid() && subscribed
      modifies this`subscribed, this`activeSubscriptions
      ensures Valid() && !subscribed
      ensures activeSubscriptions == old(activeSubscriptions) - 1
    {
      activeSubscriptions := activeSubscriptions - 1;
      subscribed := false;
    }

    /** The initial fetch answers (a failed fetch answers "no user"): the
        user is replaced and loading ends. Nothing else changes. */
    method InitialFetchResolved(fetched: Option<User>)
      requires Valid() && pendingFetches > 0
      modifies this`user, this`isLoading, this`pendingFetches
      ensures Valid()
      ensures user == fetched && !isLoading
      ensures pendingFetches == old(pendingFetches) - 1
      ensures isOpen == old(isOpen) && effects == old(effects)
      ensures Items() == NavigationItems(fetched)
    {
      user := fetched;
      isLoading := false;
      pendingFetches := pendingFetches - 1;
    }

    /** The listener: whatever the event, the user becomes the session's
        user, or none without a session, and loading ends. */
    method AuthStateChanged(session: Option<Session>)
      requires Valid() && subscribed
      modifies this`user, this`isLoading
      ensures Valid()
      ensures user == (if session.Some? then Some(session.value.user) else None)
      ensures !isLoading
      ensures isOpen == old(isOpen) && effects == old(effects)
      ensures "/add-school" in Hrefs(Items()) <==> session.Some?
    {
      user := if session.Some? then Some(session.value.user) else None;
      isLoading := false;
      NavigationItemsShape(user);
    }

    /** The Sheet's open/close request. */
    method SetOpen(open: bool)
      requires Valid()
      modifies this`isOpen
      ensures Valid() && isOpen == open
    {
      isOpen := open;
    }

    /** A link in the open mobile panel is clicked: the panel closes. */
    method MobileItemClicked(item: NavItem)
      requires Valid() && isOpen && item in Items()
      modifies this`isOpen
      ensures Valid() && !isOpen
      ensures user == old(user) && isLoading == old(isLoading) && effects == old(effects)
    {
      isOpen := false;
    }

    /** The mobile Login button, shown once loading is over and no one is
        signed in, is clicked: the panel closes. */
    method MobileLoginClicked()
      requires Valid() && isOpen && MobileAuthControl(isLoading, user) == Some(LoginButton)
      modifies this`isOpen
      ensures Valid() && !isOpen
      ensures user == old(user) && isLoading == old(isLoading) && effects == old(effects)
    {
      isOpen := false;
    }

    /** `handleSignOut` up to its `await`: the provider is asked to sign out.
        Logout is only offered to a loaded, signed-in user. */
    method SignOutClicked()
      requires Valid() && DesktopAuthControl(isLoading, user) == LogoutButton
      modifies this`effects, this`pendingSignOuts
      ensures Valid()
      ensures effects == old(effects) + [SignOut]
      ensures pendingSignOuts == old(pendingSignOuts) + 1
    {
      effects := effects + [SignOut];
      pendingSignOuts := pendingSignOuts + 1;
    }

    /** `handleSignOut` after its `await`, once the promise has fulfilled,
        whatever value it carries (an `{ error }` answer is not inspected):
        navigate home, then close the panel. The user is left for the
        listener to clear. */
    method SignOutResolved()
      requires Valid() && pendingSignOuts > 0
      modifies this`effects, this`isOpen, this`pendingSignOuts
      ensures Valid()
      ensures effects == old(effects) + [Push("/")] && !isOpen
      ensures pendingSignOuts == old(pendingSignOuts) - 1
      ensures user == old(user) && isLoading == old(isLoading)
    {
      effects := effects + [Push("/")];
      isOpen := false;
      pendingSignOuts := pendingSignOuts - 1;
    }

    /** `handleSignOut` when the promise rejects: the `await` throws, there
        is no `try`, so the rest of the handler never runs. Nothing is
        navigated and the panel stays as it is. */
    method SignOutThrew(reason: Thrown)
      requires Valid() && pendingSignOuts > 0
      modifies this`pendingSignOuts
      ensures Valid()
      ensures pendingSignOuts == old(pendingSignOuts) - 1
      ensures effects == old(effects) && isOpen == old(isOpen) && user == old(user)
    {
      pendingSignOuts := pendingSignOuts - 1;
    }

    /** `handleSignOut` when no other event comes between the call and its
        answer: sign-out, then, only if the promise fulfils, home and the
        panel closed. */
    method HandleSignOut(settled: Settlement)
      requires Valid() && DesktopAuthControl(isLoading, user) == LogoutButton
      modifies this`effects, this`isOpen, this`pendingSignOuts
      ensures Valid()
      ensures settled.Fulfilled? ==> effects == old(effects) + [SignOut, Push("/")] && !isOpen
      ensures settled.Threw? ==> effects == old(effects) + [SignOut] && isOpen == old(isOpen)
      ensures user == old(user) && pendingSignOuts == old(pendingSignOuts)
    {
      SignOutClicked();
      if settled.Fulfilled? {
        SignOutResolved();
      } else {
        SignOutThrew(settled.reason);
      }
    }

    /** Mounting and then unmounting leaves the provider with the listeners
        it had before. */
    method MountThenUnmount()
      requires Valid() && !subscribed
      modifies this`subscribed, this`activeSubscriptions, this`pendingFetches
      ensures Valid() && !subscribed
      ensures activeSubscriptions == old(activeSubscriptions)
      ensures pendingFetches == old(pendingFetches) + 1
    {
      Mount();
      Unmount();
    }
  }
}
