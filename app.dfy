/**
 * The application shell: the toast list behind `addNotification`, the
 * light/dark theme, the top-level view and the selected role dashboard.
 */
module App {
  import opened Common
  import opened Types

  // ----- Notifications -----

  /** `prev.filter(msg => msg.id !== id)`. */
  function WithoutId(ms: seq<NotificationMessage>, id: int): (r: seq<NotificationMessage>)
    ensures |r| <= |ms|
    ensures forall k :: 0 <= k < |r| ==> r[k].id != id
  {
    if ms == [] then []
    else if ms[0].id != id then [ms[0]] + WithoutId(ms[1..], id)
    else WithoutId(ms[1..], id)
  }

  /** A toast survives a removal exactly when it was there and carries another id. */
  lemma {:induction false} WithoutIdMembership(ms: seq<NotificationMessage>, id: int)
    ensures forall m :: m in WithoutId(ms, id) <==> m in ms && m.id != id
  {
    if ms != [] {
      WithoutIdMembership(ms[1..], id);
      assert ms == [ms[0]] + ms[1..];
    }
  }

  /** Removal works entry by entry, so the survivors keep their order. */
  lemma {:induction false} WithoutIdConcat(a: seq<NotificationMessage>, b: seq<NotificationMessage>, id: int)
    ensures WithoutId(a + b, id) == WithoutId(a, id) + WithoutId(b, id)
  {
    if a == [] {
      assert a + b == b;
    } else {
      assert (a + b)[0] == a[0];
      assert (a + b)[1..] == a[1..] + b;
      WithoutIdConcat(a[1..], b, id);
    }
  }

  /** Removing an id no toast carries changes nothing. */
  lemma {:induction false} WithoutAbsentId(ms: seq<NotificationMessage>, id: int)
    requires forall k :: 0 <= k < |ms| ==> ms[k].id != id
    ensures WithoutId(ms, id) == ms
  {
    if ms != [] {
      WithoutAbsentId(ms[1..], id);
      assert ms == [ms[0]] + ms[1..];
    }
  }

  /** Removing the same id a second time changes nothing. */
  lemma WithoutIdIdempotent(ms: seq<NotificationMessage>, id: int)
    ensures WithoutId(WithoutId(ms, id), id) == WithoutId(ms, id)
  {
    WithoutAbsentId(WithoutId(ms, id), id);
  }

  /** The toast `addNotification` appends: the message with the creation time as its id. */
  function Stamped(n: Notice, now: int): (m: NotificationMessage)
    ensures m.id == now && m.message == n.message && m.kind == n.kind
  {
    NotificationMessage(now, n.message, n.kind)
  }

  /**
   * Two toasts added in the same millisecond share their id, so removing
   * either one (which is what the first one's expiry timer does) removes both.
   */
  lemma SameMillisecondCollision(ms: seq<NotificationMessage>, first: Notice, second: Notice, now: int)
    ensures WithoutId(ms + [Stamped(first, now)] + [Stamped(second, now)], now) == WithoutId(ms, now)
  {
    var extra := [Stamped(first, now)] + [Stamped(second, now)];
    assert ms + [Stamped(first, now)] + [Stamped(second, now)] == ms + extra;
    WithoutIdConcat(ms, extra, now);
    assert extra[1..] == [Stamped(second, now)];
    assert WithoutId(extra, now) == [];
  }

  /** Toasts with other ids are untouched by that removal. */
  lemma CollisionKeepsOthers(ms: seq<NotificationMessage>, first: Notice, second: Notice, now: int)
    ensures forall m :: m in ms && m.id != now ==>
      m in WithoutId(ms + [Stamped(first, now)] + [Stamped(second, now)], now)
  {
    SameMillisecondCollision(ms, first, second, now);
    WithoutIdMembership(ms, now);
  }

  // ----- Theme -----

  /** `toggleTheme`: dark becomes light and light becomes dark. */
  function Toggled(t: Theme): (r: Theme)
    ensures r != t
    ensures r == Dark <==> t == Light
  {
    match t
    case Dark => Light
    case Light => Dark
  }

  /** Toggling twice restores the theme. */
  lemma ToggleTwice(t: Theme)
    ensures Toggled(Toggled(t)) == t
  {
  }

  /** The theme at start-up: the saved one, or dark when nothing is saved. */
  function InitialTheme(saved: Option<Theme>): (t: Theme)
    ensures saved.Some? ==> t == saved.value
    ensures saved.None? ==> t == Dark
  {
    if saved.Some? then saved.value else Dark
  }

  // ----- Views and dashboards -----

  /** What the main area shows. */
  datatype Screen = LandingPage | DiscoverPage | HubSelector | HubPage(hub: Hub)

  /**
   * `renderView` with `renderContent` inside the 'app' view: a view name
   * other than 'discover' and 'app' shows the landing page, and inside the
   * app a null hub shows the role selector.
   */
  function ScreenFor(view: string, activeHub: Option<Hub>): (s: Screen)
    ensures s == LandingPage <==> view != "discover" && view != "app"
    ensures s == DiscoverPage <==> view == "discover"
    ensures s == HubSelector <==> view == "app" && activeHub.None?
    ensures s.HubPage? <==> view == "app" && activeHub.Some?
    ensures s.HubPage? ==> s.hub == activeHub.value
  {
    if view == "discover" then DiscoverPage
    else if view == "app" then (if activeHub.Some? then HubPage(activeHub.value) else HubSelector)
    else LandingPage
  }

  /**
   * The state the three providers and the two view components keep.
   * `activeHub` is the `MainApp` cell, which exists only while the view is
   * 'app'; `storedHub` is the 'soundchild-hub' entry of local storage, which
   * `MainApp` reads when it mounts and its effect rewrites after every render
   * in which the hub changed.
   */
  class Shell {
    var messages: seq<NotificationMessage>
    var theme: Theme
    var view: string
    var activeHub: Option<Hub>
    var storedHub: Option<Hub>

    /** While `MainApp` is mounted, the storage entry mirrors its hub cell. */
    predicate Mirrored()
      reads this
    {
      view == "app" ==> storedHub == activeHub
    }

    /** Start-up: no toasts, the saved theme, the stored hub and the landing view. */
    constructor(savedTheme: Option<Theme>, savedHub: Option<Hub>)
      ensures messages == [] && theme == InitialTheme(savedTheme)
      ensures view == "landing" && activeHub.None? && storedHub == savedHub
      ensures Mirrored()
    {
      messages := [];
      theme := InitialTheme(savedTheme);
      view := "landing";
      activeHub := None;
      storedHub := savedHub;
    }

    function Screen(): Screen
      reads this
    {
      ScreenFor(view, activeHub)
    }

    /** `addNotification`, with `Date.now()` passed in: one toast appended at the end. */
    method AddNotification(n: Notice, now: int)
      modifies this
      ensures messages == old(messages) + [Stamped(n, now)]
      ensures theme == old(theme) && view == old(view) && activeHub == old(activeHub) && storedHub == old(storedHub)
    {
      messages := messages + [Stamped(n, now)];
    }

    /** `removeNotification`, from the close button or the expiry timer. */
    method RemoveNotification(id: int)
      modifies this
      ensures messages == WithoutId(old(messages), id)
      ensures forall m :: m in messages <==> m in old(messages) && m.id != id
      ensures theme == old(theme) && view == old(view) && activeHub == old(activeHub) && storedHub == old(storedHub)
    {
      WithoutIdMembership(messages, id);
      messages := WithoutId(messages, id);
    }

    method ToggleTheme()
      modifies this
      ensures theme == Toggled(old(theme))
      ensures messages == old(messages) && view == old(view) && activeHub == old(activeHub) && storedHub == old(storedHub)
    {
      theme := Toggled(theme);
    }

    /**
     * The header links and the landing page buttons set the view. Entering
     * 'app' from another view mounts `MainApp`, whose hub cell starts from
     * the stored hub. Outside 'app' the cell is not rendered: the model leaves
     * `activeHub` as it was, and it is read afresh from storage on re-entry.
     */
    method Navigate(target: string)
      requires Mirrored()
      modifies this
      ensures view == target
      ensures target == "app" && old(view) != "app" ==> activeHub == old(storedHub)
      ensures !(target == "app" && old(view) != "app") ==> activeHub == old(activeHub)
      ensures storedHub == old(storedHub) && Mirrored()
      ensures messages == old(messages) && theme == old(theme)
    {
      if target == "app" && view != "app" {
        activeHub := storedHub;
      }
      view := target;
    }

    /** A role card of the selector was clicked; the effect then stores the hub. */
    method SelectHub(h: Hub)
      requires Screen() == HubSelector && Mirrored()
      modifies this
      ensures activeHub == Some(h) && storedHub == Some(h)
      ensures Screen() == HubPage(h) && Mirrored()
      ensures messages == old(messages) && theme == old(theme) && view == old(view)
    {
      activeHub := Some(h);
      storedHub := Some(h);
    }

    /**
     * `handleBackToHubSelector` as React runs it: clearing the hub and
     * leaving the app are one batched update, so `MainApp` unmounts without
     * rendering the cleared hub and its effect never removes the stored one.
     */
    method BackToHubs()
      requires Screen().HubPage? && Mirrored()
      modifies this
      ensures activeHub.None? && view == "landing" && Screen() == LandingPage
      ensures storedHub == old(storedHub) && storedHub == Some(old(Screen()).hub)
      ensures messages == old(messages) && theme == old(theme)
    {
      activeHub := None;
      view := "landing";
    }

    /** The intended back action: the stored hub is forgotten together with the cell. */
    method BackToHubsForgettingHub()
      requires Screen().HubPage? && Mirrored()
      modifies this
      ensures activeHub.None? && storedHub.None? && view == "landing" && Screen() == LandingPage
      ensures messages == old(messages) && theme == old(theme)
    {
      activeHub := None;
      storedHub := None;
      view := "landing";
    }
  }

  /**
   * As written, leaving a dashboard with 'Back to Hubs' and launching the app
   * again reopens the same dashboard instead of the role selector.
   */
  method LeaveAndRelaunch(shell: Shell)
    requires shell.Screen().HubPage? && shell.Mirrored()
    modifies shell
    ensures shell.Screen() == old(shell.Screen())
    ensures shell.messages == old(shell.messages) && shell.theme == old(shell.theme)
  {
    shell.BackToHubs();
    shell.Navigate("app");
  }

  /** With the stored hub forgotten, launching the app again shows the role selector. */
  method LeaveAndRelaunchForgettingHub(shell: Shell)
    requires shell.Screen().HubPage? && shell.Mirrored()
    modifies shell
    ensures shell.Screen() == HubSelector
    ensures shell.messages == old(shell.messages) && shell.theme == old(shell.theme)
  {
    shell.BackToHubsForgettingHub();
    shell.Navigate("app");
  }

  /**
   * From a fresh start with nothing stored: launch the app, pick a role, go
   * back to the hubs and launch again. As written, the role's dashboard is
   * what shows.
   */
  method BackThenRelaunch(h: Hub) returns (s: Screen)
    ensures s == HubPage(h)
  {
    var shell := new Shell(None, None);
    shell.Navigate("app");
    shell.SelectHub(h);
    shell.BackToHubs();
    shell.Navigate("app");
    s := shell.Screen();
  }

  /** The same steps with the intended back action show the role selector. */
  method BackThenRelaunchForgettingHub(h: Hub) returns (s: Screen)
    ensures s == HubSelector
  {
    var shell := new Shell(None, None);
    shell.Navigate("app");
    shell.SelectHub(h);
    shell.BackToHubsForgettingHub();
    shell.Navigate("app");
    s := shell.Screen();
  }
}
