/** The UI slice of the client store: theme, sidebar, the newest-first notification list
    capped at 50, modal flags, loading flags, the toast and layout preferences. The store
    is a class whose reducers update its fields in place; `State()` is the whole state as
    a value, and each reducer's contract gives the new state. Fresh ids, clock readings
    and the saved theme are parameters. */
module UiSlice {
  import opened Wrappers
  import Seqs
  import Dedupe

  datatype Theme = Light | Dark | System

  /** `themes`, in cycling order. */
  const THEMES: seq<Theme> := [Light, Dark, System]

  function ThemeName(t: Theme): string {
    match t
    case Light => "light"
    case Dark => "dark"
    case System => "system"
  }

  /** `['light', 'dark', 'system'].includes(saved)`. */
  function ParseTheme(s: string): (r: Option<Theme>)
    ensures r.Some? ==> ThemeName(r.value) == s
  {
    if s == "light" then Some(Light)
    else if s == "dark" then Some(Dark)
    else if s == "system" then Some(System)
    else None
  }

  /** `getInitialTheme`: the saved theme when it names one, else "system". */
  function InitialTheme(saved: Option<string>): Theme {
    if saved.Some? && saved.value != "" && ParseTheme(saved.value).Some? then ParseTheme(saved.value).value
    else System
  }

  /** A saved theme name comes back as that theme; anything else, or nothing, gives
      "system". */
  lemma InitialThemeProps(saved: Option<string>, t: Theme)
    ensures InitialTheme(Some(ThemeName(t))) == t
    ensures (saved.None? || ParseTheme(saved.value).None?) ==> InitialTheme(saved) == System
    ensures saved.Some? && ParseTheme(saved.value).Some? ==> ThemeName(InitialTheme(saved)) == saved.value
  {
  }

  /** `themes.indexOf(theme)`. */
  function ThemeIndex(t: Theme): (i: nat)
    ensures i < |THEMES| && THEMES[i] == t
  {
    match t
    case Light => 0
    case Dark => 1
    case System => 2
  }

  /** The theme after `toggleTheme`. */
  function NextTheme(t: Theme): Theme {
    THEMES[(ThemeIndex(t) + 1) % |THEMES|]
  }

  /** Toggling cycles light, dark, system and back, so three toggles change nothing. */
  lemma ToggleCycle(t: Theme)
    ensures NextTheme(Light) == Dark && NextTheme(Dark) == System && NextTheme(System) == Light
    ensures NextTheme(NextTheme(NextTheme(t))) == t
    ensures NextTheme(t) != t
  {
  }

  // ---------------------------------------------------------------------------
  // The state

  datatype NotificationType = Success | Error | Warning | Info

  datatype Notification = Notification(id: string, kind: NotificationType, title: string, message: string,
    timestamp: string, read: bool)

  datatype Modal = CompanyDetails | Settings | Search
  datatype Modals = Modals(companyDetails: bool, settings: bool, search: bool)
  datatype Loading = Loading(global: bool, page: bool)
  datatype Toast = Toast(message: string, kind: NotificationType, visible: bool, duration: int)
  datatype Layout = Layout(compactMode: bool, gridView: bool)

  datatype UI = UI(theme: Theme, sidebarOpen: bool, sidebarCollapsed: bool, notifications: seq<Notification>,
    modals: Modals, loading: Loading, toast: Option<Toast>, layout: Layout)

  const MAX_NOTIFICATIONS := 50
  const DEFAULT_TOAST_DURATION := 5000

  /** `initialState`, built with the theme read at start-up. */
  function Initial(theme: Theme): UI {
    UI(theme, true, false, [], Modals(false, false, false), Loading(false, false), None, Layout(false, true))
  }

  // ---------------------------------------------------------------------------
  // Notifications

  /** `unshift`, then `slice(0, 50)` past 50. */
  function Prepended(ns: seq<Notification>, n: Notification): seq<Notification> {
    var all := [n] + ns;
    if |all| > MAX_NOTIFICATIONS then all[..MAX_NOTIFICATIONS] else all
  }

  /** The new notification comes first, followed by the newest of the old ones, and at
      most 50 are kept. */
  lemma PrependedProps(ns: seq<Notification>, n: Notification)
    ensures var r := Prepended(ns, n);
      |r| == if |ns| < MAX_NOTIFICATIONS then |ns| + 1 else MAX_NOTIFICATIONS
    ensures Prepended(ns, n)[0] == n
    ensures Prepended(ns, n)[1..] == ns[..|Prepended(ns, n)| - 1]
  {
    var all := [n] + ns;
    if |all| > MAX_NOTIFICATIONS {
      assert all[..MAX_NOTIFICATIONS][1..] == ns[..MAX_NOTIFICATIONS - 1];
    } else {
      assert all[1..] == ns;
    }
  }

  /** `find(n => n.id === id)`: the first position holding that id. */
  function FirstWithId(ns: seq<Notification>, id: string, from: nat): (r: Option<nat>)
    ensures r.Some? ==> from <= r.value < |ns| && ns[r.value].id == id
    ensures r.Some? ==> forall j :: from <= j < r.value ==> ns[j].id != id
    ensures r.None? ==> forall j :: from <= j < |ns| ==> ns[j].id != id
    decreases |ns| - from
  {
    if from >= |ns| then None
    else if ns[from].id == id then Some(from)
    else FirstWithId(ns, id, from + 1)
  }

  /** `markNotificationRead`. */
  function MarkedRead(ns: seq<Notification>, id: string): seq<Notification> {
    match FirstWithId(ns, id, 0)
    case None => ns
    case Some(i) => ns[i := ns[i].(read := true)]
  }

  /** Only the first notification with the id is marked read; every other entry, later
      duplicates of the id included, is unchanged. */
  lemma MarkedReadProps(ns: seq<Notification>, id: string)
    ensures |MarkedRead(ns, id)| == |ns|
    ensures forall j :: 0 <= j < |ns| ==> MarkedRead(ns, id)[j].(read := ns[j].read) == ns[j]
    ensures forall j :: 0 <= j < |ns| ==>
      (MarkedRead(ns, id)[j].read <==>
        ns[j].read || (ns[j].id == id && forall k :: 0 <= k < j ==> ns[k].id != id))
  {
    match FirstWithId(ns, id, 0)
    case None =>
    case Some(i) =>
      forall j | 0 <= j < |ns| && ns[j].id == id && (forall k :: 0 <= k < j ==> ns[k].id != id)
        ensures j == i
      {
        if j > i {
          assert false;
        }
      }
  }

  /** `markAllNotificationsRead`, applied to the first n entries. */
  function AllReadUpTo(ns: seq<Notification>, n: nat): seq<Notification>
    requires n <= |ns|
  {
    seq(|ns|, j requires 0 <= j < |ns| => if j < n then ns[j].(read := true) else ns[j])
  }

  predicate OtherId(id: string, n: Notification) { n.id != id }

  /** `removeNotification`: `filter(n => n.id !== id)`. */
  function WithoutId(ns: seq<Notification>, id: string): seq<Notification> {
    Seqs.Where(ns, n => OtherId(id, n))
  }

  /** Every entry with the id goes and every other stays, in its order; with no entry
      holding the id the list is unchanged. */
  lemma {:induction false} WithoutIdProps(ns: seq<Notification>, id: string)
    ensures forall n :: n in WithoutId(ns, id) <==> n in ns && n.id != id
    ensures Dedupe.Subseq(WithoutId(ns, id), ns)
    ensures (forall j :: 0 <= j < |ns| ==> ns[j].id != id) ==> WithoutId(ns, id) == ns
    decreases |ns|
  {
    Seqs.WhereOrder(ns, n => OtherId(id, n));
    if ns != [] {
      WithoutIdProps(ns[1..], id);
    }
  }

  // ---------------------------------------------------------------------------
  // Modals, toast, toggles

  function ModalFlag(ms: Modals, m: Modal): bool {
    match m
    case CompanyDetails => ms.companyDetails
    case Settings => ms.settings
    case Search => ms.search
  }

  /** `state.modals[m] = b`. */
  function WithModal(ms: Modals, m: Modal, b: bool): Modals {
    match m
    case CompanyDetails => ms.(companyDetails := b)
    case Settings => ms.(settings := b)
    case Search => ms.(search := b)
  }

  /** Opening or closing a modal sets that flag and no other. */
  lemma WithModalProps(ms: Modals, m: Modal, b: bool, other: Modal)
    ensures ModalFlag(WithModal(ms, m, b), m) == b
    ensures other != m ==> ModalFlag(WithModal(ms, m, b), other) == ModalFlag(ms, other)
  {
  }

  /** `action.payload.duration || 5000`: 0 and an absent duration both give 5000. */
  function ToastDuration(duration: Option<int>): (d: int)
    ensures duration.None? || duration.value == 0 ==> d == DEFAULT_TOAST_DURATION
    ensures duration.Some? && duration.value != 0 ==> d == duration.value
  {
    if duration.Some? && duration.value != 0 then duration.value else DEFAULT_TOAST_DURATION
  }

  /** `hideToast`. */
  function Hidden(t: Option<Toast>): (r: Option<Toast>)
    ensures t.None? ==> r.None?
    ensures t.Some? ==> r == Some(t.value.(visible := false))
  {
    if t.Some? then Some(t.value.(visible := false)) else t
  }

  /** The four boolean toggles. */
  datatype Switch = SidebarOpen | SidebarCollapsed | CompactMode | GridView

  function Flag(s: UI, w: Switch): bool {
    match w
    case SidebarOpen => s.sidebarOpen
    case SidebarCollapsed => s.sidebarCollapsed
    case CompactMode => s.layout.compactMode
    case GridView => s.layout.gridView
  }

  /** The state with one toggle flipped. */
  function Toggled(s: UI, w: Switch): UI {
    match w
    case SidebarOpen => s.(sidebarOpen := !s.sidebarOpen)
    case SidebarCollapsed => s.(sidebarCollapsed := !s.sidebarCollapsed)
    case CompactMode => s.(layout := s.layout.(compactMode := !s.layout.compactMode))
    case GridView => s.(layout := s.layout.(gridView := !s.layout.gridView))
  }

  /** A toggle flips its own flag and no other, and toggling twice restores the state. */
  lemma ToggledProps(s: UI, w: Switch, other: Switch)
    ensures Flag(Toggled(s, w), w) == !Flag(s, w)
    ensures other != w ==> Flag(Toggled(s, w), other) == Flag(s, other)
    ensures Toggled(Toggled(s, w), w) == s
    ensures Toggled(s, w).notifications == s.notifications && Toggled(s, w).theme == s.theme
  {
  }

  /** `resetUI`: the initial state with the current theme and layout. */
  function Reset(s: UI): UI {
    Initial(s.theme).(layout := s.layout)
  }

  /** A reset keeps the theme and layout, restores everything else, and resetting again
      changes nothing. */
  lemma ResetProps(s: UI)
    ensures Reset(s).theme == s.theme && Reset(s).layout == s.layout
    ensures Reset(s).(theme := Light, layout := Layout(false, true)) == Initial(Light)
    ensures Reset(Reset(s)) == Reset(s)
  {
  }

  class UiStore {
    var theme: Theme
    var sidebarOpen: bool
    var sidebarCollapsed: bool
    var notifications: seq<Notification>
    var modals: Modals
    var loading: Loading
    var toast: Option<Toast>
    var layout: Layout

    function State(): UI
      reads this
    {
      UI(theme, sidebarOpen, sidebarCollapsed, notifications, modals, loading, toast, layout)
    }

    /** The store as created, with the theme from start-up storage. */
    constructor(saved: Option<string>)
      ensures State() == Initial(InitialTheme(saved))
    {
      theme := InitialTheme(saved);
      sidebarOpen := true;
      sidebarCollapsed := false;
      notifications := [];
      modals := Modals(false, false, false);
      loading := Loading(false, false);
      toast := None;
      layout := Layout(false, true);
    }

    method SetTheme(t: Theme)
      modifies this
      ensures State() == old(State()).(theme := t)
    {
      theme := t;
    }

    method ToggleTheme()
      modifies this
      ensures State() == old(State()).(theme := NextTheme(old(theme)))
    {
      var currentIndex := ThemeIndex(theme);
      var nextIndex := (currentIndex + 1) % |THEMES|;
      theme := THEMES[nextIndex];
    }

    method SetSidebarOpen(b: bool)
      modifies this
      ensures State() == old(State()).(sidebarOpen := b)
    {
      sidebarOpen := b;
    }

    method ToggleSidebar()
      modifies this
      ensures State() == Toggled(old(State()), SidebarOpen)
    {
      sidebarOpen := !sidebarOpen;
    }

    method SetSidebarCollapsed(b: bool)
      modifies this
      ensures State() == old(State()).(sidebarCollapsed := b)
    {
      sidebarCollapsed := b;
    }

    method ToggleSidebarCollapsed()
      modifies this
      ensures State() == Toggled(old(State()), SidebarCollapsed)
    {
      sidebarCollapsed := !sidebarCollapsed;
    }

    /** `addNotification`: the entry gets the fresh id and timestamp and starts unread. */
    method AddNotification(kind: NotificationType, title: string, message: string, id: string, timestamp: string)
      modifies this
      ensures State() == old(State()).(notifications :=
        Prepended(old(notifications), Notification(id, kind, title, message, timestamp, false)))
    {
      notifications := [Notification(id, kind, title, message, timestamp, false)] + notifications;
      if |notifications| > MAX_NOTIFICATIONS {
        notifications := notifications[..MAX_NOTIFICATIONS];
      }
    }

    /** `markNotificationRead`: a search for the first entry with the id, which is then
        marked. */
    method MarkNotificationRead(id: string)
      modifies this
      ensures State() == old(State()).(notifications := MarkedRead(old(notifications), id))
    {
      var i := 0;
      while i < |notifications| && notifications[i].id != id
        invariant i <= |notifications|
        invariant FirstWithId(notifications, id, 0) == FirstWithId(notifications, id, i)
      {
        i := i + 1;
      }
      if i < |notifications| {
        notifications := notifications[i := notifications[i].(read := true)];
      }
    }

    /** `markAllNotificationsRead`: every entry is marked, one by one. */
    method MarkAllNotificationsRead()
      modifies this
      ensures State() == old(State()).(notifications := AllReadUpTo(old(notifications), |old(notifications)|))
      ensures forall j :: 0 <= j < |notifications| ==> notifications[j].read
    {
      ghost var before := notifications;
      for i := 0 to |notifications|
        invariant before == old(notifications) && |notifications| == |before|
        invariant notifications == AllReadUpTo(before, i)
        invariant State() == old(State()).(notifications := notifications)
      {
        notifications := notifications[i := notifications[i].(read := true)];
      }
    }

    method RemoveNotification(id: string)
      modifies this
      ensures State() == old(State()).(notifications := WithoutId(old(notifications), id))
    {
      notifications := WithoutId(notifications, id);
    }

    method ClearNotifications()
      modifies this
      ensures State() == old(State()).(notifications := [])
    {
      notifications := [];
    }

    method OpenModal(m: Modal)
      modifies this
      ensures State() == old(State()).(modals := WithModal(old(modals), m, true))
    {
      modals := WithModal(modals, m, true);
    }

    method CloseModal(m: Modal)
      modifies this
      ensures State() == old(State()).(modals := WithModal(old(modals), m, false))
    {
      modals := WithModal(modals, m, false);
    }

    /** `closeAllModals`: each key set false in turn. */
    method CloseAllModals()
      modifies this
      ensures State() == old(State()).(modals := Modals(false, false, false))
    {
      var keys := [CompanyDetails, Settings, Search];
      for i := 0 to |keys|
        invariant forall j :: 0 <= j < i ==> !ModalFlag(modals, keys[j])
        invariant State() == old(State()).(modals := modals)
      {
        modals := WithModal(modals, keys[i], false);
      }
      assert !ModalFlag(modals, keys[0]) && !ModalFlag(modals, keys[1]) && !ModalFlag(modals, keys[2]);
    }

    method SetGlobalLoading(b: bool)
      modifies this
      ensures State() == old(State()).(loading := old(loading).(global := b))
    {
      loading := loading.(global := b);
    }

    method SetPageLoading(b: bool)
      modifies this
      ensures State() == old(State()).(loading := old(loading).(page := b))
    {
      loading := loading.(page := b);
    }

    /** `showToast`: a visible toast with the given or default duration. */
    method ShowToast(message: string, kind: NotificationType, duration: Option<int>)
      modifies this
      ensures State() == old(State()).(toast := Some(Toast(message, kind, true, ToastDuration(duration))))
    {
      toast := Some(Toast(message, kind, true, ToastDuration(duration)));
    }

    method HideToast()
      modifies this
      ensures State() == old(State()).(toast := Hidden(old(toast)))
    {
      if toast.Some? {
        toast := Some(toast.value.(visible := false));
      }
    }

    method ClearToast()
      modifies this
      ensures State() == old(State()).(toast := None)
    {
      toast := None;
    }

    method SetCompactMode(b: bool)
      modifies this
      ensures State() == old(State()).(layout := old(layout).(compactMode := b))
    {
      layout := layout.(compactMode := b);
    }

    method ToggleCompactMode()
      modifies this
      ensures State() == Toggled(old(State()), CompactMode)
    {
      layout := layout.(compactMode := !layout.compactMode);
    }

    method SetGridView(b: bool)
      modifies this
      ensures State() == old(State()).(layout := old(layout).(gridView := b))
    {
      layout := layout.(gridView := b);
    }

    method ToggleGridView()
      modifies this
      ensures State() == Toggled(old(State()), GridView)
    {
      layout := layout.(gridView := !layout.gridView);
    }

    /** `resetUI`. */
    method ResetUI()
      modifies this
      ensures State() == Reset(old(State()))
    {
      var keepTheme, keepLayout := theme, layout;
      sidebarOpen := true;
      sidebarCollapsed := false;
      notifications := [];
      modals := Modals(false, false, false);
      loading := Loading(false, false);
      toast := None;
      theme, layout := keepTheme, keepLayout;
    }
  }
}
