/**
 * The two sidebars. `Nav` is the application's own sidebar: a collapsed flag
 * kept in local storage and a farm type (Telegram or Chrome) that follows
 * the route. `Provider` is the sidebar toolkit's context: an open flag that
 * a parent may control, a separate flag for the mobile sheet, the keyboard
 * shortcut, and the derived `state` that decides whether menu tooltips show.
 */
module Sidebar {
  import opened Wrappers
  import opened JsText

  /** `b.toString()` */
  function BoolString(b: bool): string {
    if b then "true" else "false"
  }

  // ---------------------------------------------------------------------------
  // The application sidebar

  datatype FarmType = Telegram | Chrome

  /** `getCurrentType()`: only the Chrome page selects Chrome. */
  function CurrentType(location: string): (t: FarmType)
    ensures t == Chrome <==> location == "/chrome"
  {
    if location == "/chrome" then Chrome else Telegram
  }

  /** `shouldHighlightFarmType` */
  predicate ShouldHighlightFarmType(location: string) {
    location == "/" || location == "/chrome"
  }

  /** The farm-type button drawn highlighted, if any: the one of the current
      type, on the two farm pages only. */
  function HighlightedButton(location: string, farmType: FarmType): (b: Option<FarmType>)
    ensures b.Some? ==> b.value == farmType
    ensures b.Some? <==> location == "/" || location == "/chrome"
  {
    if ShouldHighlightFarmType(location) then Some(farmType) else None
  }

  /** With the type taken from the route, "/" highlights Telegram, "/chrome"
      highlights Chrome, and every other route highlights nothing. */
  lemma HighlightFollowsRoute(location: string)
    ensures HighlightedButton(location, CurrentType(location))
            == if location == "/" then Some(Telegram)
               else if location == "/chrome" then Some(Chrome)
               else None
  {
  }

  const CollapsedKey := "sidebar-collapsed"

  /** `localStorage.getItem('sidebar-collapsed') === 'true'`, with local
      storage as a map from keys to strings. */
  function LoadCollapsed(storage: map<string, string>): bool {
    CollapsedKey in storage && storage[CollapsedKey] == "true"
  }

  /** `localStorage.setItem('sidebar-collapsed', isCollapsed.toString())`:
      reading the flag back gives what was written, and no other key changes. */
  function SaveCollapsed(storage: map<string, string>, isCollapsed: bool): (stored: map<string, string>)
    ensures LoadCollapsed(stored) == isCollapsed
    ensures stored.Keys == storage.Keys + {CollapsedKey}
    ensures forall k :: k in storage && k != CollapsedKey ==> stored[k] == storage[k]
  {
    storage[CollapsedKey := BoolString(isCollapsed)]
  }

  /** Only the exact string "true" loads as collapsed: anything else stored,
      or nothing, loads as expanded. */
  lemma LoadCollapsedOnlyTrue(storage: map<string, string>, text: string)
    ensures LoadCollapsed(storage[CollapsedKey := text]) <==> text == "true"
    ensures CollapsedKey !in storage ==> !LoadCollapsed(storage)
  {
  }

  class Nav {
    var location: string
    var isCollapsed: bool
    var farmType: FarmType
    var storage: map<string, string>
    /** The last value assigned to `window.location.href`, if any. */
    var navigatedTo: Option<string>

    /** Mounting: the flag is read from storage, the save effect writes it
        straight back, and the type follows the route. */
    constructor (location: string, storage: map<string, string>)
      ensures this.location == location
      ensures isCollapsed == LoadCollapsed(storage)
      ensures this.storage == SaveCollapsed(storage, isCollapsed)
      ensures farmType == CurrentType(location)
      ensures navigatedTo == None
    {
      this.location := location;
      isCollapsed := LoadCollapsed(storage);
      this.storage := SaveCollapsed(storage, LoadCollapsed(storage));
      farmType := CurrentType(location);
      navigatedTo := None;
    }

    /** The collapse button, then the save effect: the flag flips and storage
        holds the new value. */
    method ToggleCollapsed()
      modifies this
      ensures isCollapsed == !old(isCollapsed)
      ensures storage == SaveCollapsed(old(storage), isCollapsed)
      ensures LoadCollapsed(storage) == isCollapsed
      ensures location == old(location) && farmType == old(farmType) && navigatedTo == old(navigatedTo)
    {
      isCollapsed := !isCollapsed;
      storage := SaveCollapsed(storage, isCollapsed);
    }

    /** The effect on `[location]`. */
    method OnLocationChange(newLocation: string)
      modifies this
      ensures location == newLocation && farmType == CurrentType(newLocation)
      ensures isCollapsed == old(isCollapsed) && storage == old(storage) && navigatedTo == old(navigatedTo)
    {
      location := newLocation;
      farmType := CurrentType(newLocation);
    }

    /** `handleTelegramClick`: the type it sets is the one the target route
        will select. */
    method TelegramClick()
      modifies this
      ensures farmType == Telegram == CurrentType("/") && navigatedTo == Some("/")
      ensures location == old(location) && isCollapsed == old(isCollapsed) && storage == old(storage)
    {
      farmType := Telegram;
      navigatedTo := Some("/");
    }

    /** `handleChromeClick` */
    method ChromeClick()
      modifies this
      ensures farmType == Chrome == CurrentType("/chrome") && navigatedTo == Some("/chrome")
      ensures location == old(location) && isCollapsed == old(isCollapsed) && storage == old(storage)
    {
      farmType := Chrome;
      navigatedTo := Some("/chrome");
    }
  }

  // ---------------------------------------------------------------------------
  // The toolkit's sidebar provider

  const CookieName := "sidebar_state"
  const CookieMaxAge := 60 * 60 * 24 * 7
  const KeyboardShortcut := "b"

  /** The cookie `setOpen` writes. */
  function OpenCookie(open: bool): string {
    CookieName + "=" + BoolString(open) + "; path=/; max-age=" + IntToString(CookieMaxAge)
  }

  /** The cookie names the value written right after `sidebar_state=`, so the
      two values are told apart by its prefix, and it lasts a week (604800
      seconds) whichever value it holds. */
  lemma OpenCookieSays(open: bool)
    ensures var c := OpenCookie(open);
            && (open ==> c[..19] == "sidebar_state=true;")
            && (!open ==> c[..20] == "sidebar_state=false;")
            && |c| >= 24 && c[|c| - 24..] == "; path=/; max-age=604800"
  {
    MaxAgeText();
    var c := OpenCookie(open);
    if open {
      assert c == "sidebar_state=true" + "; path=/; max-age=604800";
    } else {
      assert c == "sidebar_state=false" + "; path=/; max-age=604800";
    }
  }

  /** `String(SIDEBAR_COOKIE_MAX_AGE)`, one digit at a time. */
  lemma MaxAgeText()
    ensures IntToString(CookieMaxAge) == "604800"
  {
    assert NatToString(6) == "6";
    assert NatToString(60) == NatToString(6) + "0";
    assert NatToString(604) == NatToString(60) + "4";
    assert NatToString(6048) == NatToString(604) + "8";
    assert NatToString(60480) == NatToString(6048) + "0";
    assert NatToString(604800) == NatToString(60480) + "0";
  }

  /** `state`: "expanded" exactly when the sidebar is open. */
  datatype SidebarState = Expanded | Collapsed

  function StateOf(open: bool): (state: SidebarState)
    ensures state == Expanded <==> open
  {
    if open then Expanded else Collapsed
  }

  /** `hidden={state !== 'collapsed' || isMobile}`: the expression is false
      exactly on a collapsed desktop sidebar. */
  function TooltipHidden(state: SidebarState, isMobile: bool): (hidden: bool)
    ensures !hidden <==> state == Collapsed && !isMobile
  {
    state != Collapsed || isMobile
  }

  /** The keydown handler's test: the shortcut key with Meta or Ctrl held. */
  predicate ShortcutFires(key: string, metaKey: bool, ctrlKey: bool) {
    key == KeyboardShortcut && (metaKey || ctrlKey)
  }

  /** The argument of `setOpen`: a value, or a function of the current value. */
  datatype OpenUpdate = To(value: bool) | Apply(f: bool -> bool)

  /** `typeof value === 'function' ? value(open) : value` */
  function Resolve(update: OpenUpdate, open: bool): bool {
    match update
    case To(v) => v
    case Apply(f) => f(open)
  }

  class Provider {
    /** `useIsMobile()` */
    var isMobile: bool
    var openMobile: bool
    /** `_open`, the internal state. */
    var internalOpen: bool
    /** The `open` prop, when the parent controls the sidebar. */
    var openProp: Option<bool>
    /** Whether the parent passed `onOpenChange`. */
    var hasOnOpenChange: bool
    /** Every value handed to the parent's `onOpenChange`, oldest first. */
    var reported: seq<bool>
    /** The last cookie written, if any. */
    var cookie: Option<string>

    /** Mounting; `defaultOpen` is `None` when the prop is not passed, and
        then the sidebar starts open. */
    constructor (defaultOpen: Option<bool>, openProp: Option<bool>, hasOnOpenChange: bool, isMobile: bool)
      ensures internalOpen == defaultOpen.GetOr(true) && !openMobile
      ensures openProp.None? && defaultOpen.None? ==> Open() && State() == Expanded
      ensures this.openProp == openProp && this.hasOnOpenChange == hasOnOpenChange && this.isMobile == isMobile
      ensures reported == [] && cookie == None
    {
      internalOpen := defaultOpen.GetOr(true);
      openMobile := false;
      this.openProp := openProp;
      this.hasOnOpenChange := hasOnOpenChange;
      this.isMobile := isMobile;
      reported := [];
      cookie := None;
    }

    /** `open = openProp ?? _open`: the parent's value when it gives one. */
    function Open(): (open: bool)
      reads this
      ensures openProp.Some? ==> open == openProp.value
      ensures openProp.None? ==> open == internalOpen
    {
      openProp.GetOr(internalOpen)
    }

    function State(): SidebarState
      reads this
    {
      StateOf(Open())
    }

    /** `setOpen(value)`: the new value goes to `onOpenChange` when the parent
        gave one, to the internal state otherwise, and into the cookie. */
    method SetOpen(update: OpenUpdate)
      modifies this
      ensures var v := Resolve(update, old(Open()));
              && (hasOnOpenChange ==> reported == old(reported) + [v] && internalOpen == old(internalOpen))
              && (!hasOnOpenChange ==> internalOpen == v && reported == old(reported))
              && cookie == Some(OpenCookie(v))
      ensures openMobile == old(openMobile) && isMobile == old(isMobile)
      ensures openProp == old(openProp) && hasOnOpenChange == old(hasOnOpenChange)
    {
      var v := Resolve(update, Open());
      if hasOnOpenChange {
        reported := reported + [v];
      } else {
        internalOpen := v;
      }
      cookie := Some(OpenCookie(v));
    }

    /** `toggleSidebar`: on mobile it flips the sheet and nothing else; on a
        desktop it asks `setOpen` for the negation of the current `open`,
        which an uncontrolled sidebar then shows. */
    method ToggleSidebar()
      modifies this
      ensures isMobile == old(isMobile) && openProp == old(openProp) && hasOnOpenChange == old(hasOnOpenChange)
      ensures old(isMobile) ==>
                && openMobile == !old(openMobile)
                && internalOpen == old(internalOpen) && reported == old(reported) && cookie == old(cookie)
      ensures !old(isMobile) ==>
                && openMobile == old(openMobile)
                && cookie == Some(OpenCookie(!old(Open())))
                && (hasOnOpenChange ==> reported == old(reported) + [!old(Open())] && internalOpen == old(internalOpen))
                && (!hasOnOpenChange ==> internalOpen == !old(Open()) && reported == old(reported))
      ensures !old(isMobile) && openProp.None? && !hasOnOpenChange ==> Open() == !old(Open())
    {
      if isMobile {
        openMobile := !openMobile;
      } else {
        SetOpen(Apply(b => !b));
      }
    }

    /** The keydown listener: the shortcut toggles the sidebar and is kept
        from the page; every other key is left alone. */
    method HandleKeyDown(key: string, metaKey: bool, ctrlKey: bool) returns (prevented: bool)
      modifies this
      ensures prevented == ShortcutFires(key, metaKey, ctrlKey)
      ensures isMobile == old(isMobile) && openProp == old(openProp) && hasOnOpenChange == old(hasOnOpenChange)
      ensures !prevented ==>
                && openMobile == old(openMobile) && internalOpen == old(internalOpen)
                && reported == old(reported) && cookie == old(cookie)
      ensures prevented && old(isMobile) ==>
                && openMobile == !old(openMobile)
                && internalOpen == old(internalOpen) && reported == old(reported) && cookie == old(cookie)
      ensures prevented && !old(isMobile) ==>
                && openMobile == old(openMobile)
                && cookie == Some(OpenCookie(!old(Open())))
                && (hasOnOpenChange ==> reported == old(reported) + [!old(Open())] && internalOpen == old(internalOpen))
                && (!hasOnOpenChange ==> internalOpen == !old(Open()) && reported == old(reported))
      ensures prevented && !old(isMobile) && openProp.None? && !hasOnOpenChange ==> Open() == !old(Open())
    {
      prevented := ShortcutFires(key, metaKey, ctrlKey);
      if prevented {
        ToggleSidebar();
      }
    }
  }

  /** The shortcut is exactly "b" with Meta or Ctrl: no other key fires it,
      and without Meta or Ctrl (Shift or Alt alone) nothing does. */
  lemma ShortcutOnlyB(key: string, metaKey: bool, ctrlKey: bool)
    ensures ShortcutFires(key, metaKey, ctrlKey) ==> key == "b"
    ensures !metaKey && !ctrlKey ==> !ShortcutFires(key, metaKey, ctrlKey)
    ensures key == "b" && (metaKey || ctrlKey) ==> ShortcutFires(key, metaKey, ctrlKey)
  {
  }
}
