/**
 * The sidebar's state and the handlers of assets/js/main-layout.js as pure
 * transitions. The page wrapper's `sidebar-collapsed` class, the inline
 * `--sidebar-width` custom property on the document element, the two
 * `localStorage` entries and whether the document-level mousemove/mouseup
 * listeners are attached make up one immutable `Layout` value.
 */
module SidebarLayout {
  import opened Wrappers
  import opened JsText

  const KeyWidth := "sidebarWidth"
  const KeyCollapsed := "sidebarCollapsed"

  /** The fallbacks used when the page styles leave the bounds unset. */
  const DefaultMinText := "220"
  const DefaultMaxText := "500"

  /** What `${n}px` produces when `n` is `NaN`. */
  const NaNPx := "NaNpx"

  /** MIN_WIDTH and MAX_WIDTH, read once from the page styles. */
  datatype Bounds = Bounds(min: int, max: int)

  datatype Layout = Layout(
    collapsed: bool,                // `sidebar-collapsed` is on the page wrapper
    width: Option<string>,          // inline `--sidebar-width`; None when unset
    store: map<string, string>,     // localStorage
    dragging: bool                  // mousemove/mouseup listeners are attached
  )

  /** The page as it is before the script runs: no class, no inline width, no drag. */
  function FreshPage(store: map<string, string>): Layout {
    Layout(false, None, store, false)
  }

  /** `parseInt(raw || fallback)` for one bound read from the page styles. */
  function CssBound(raw: string, fallback: string): (r: Option<int>)
    ensures raw != "" ==> r == ParseInt(raw)
    ensures raw == "" && fallback == DefaultMinText ==> r == Some(220)
    ensures raw == "" && fallback == DefaultMaxText ==> r == Some(500)
  {
    DefaultTextsParse();
    ParseInt(if raw == "" then fallback else raw)
  }

  /** The fallback texts read as 220 and 500. */
  lemma DefaultTextsParse()
    ensures ParseInt(DefaultMinText) == Some(220)
    ensures ParseInt(DefaultMaxText) == Some(500)
  {
    assert IntToDecimal(220) + "" == DefaultMinText;
    assert IntToDecimal(500) + "" == DefaultMaxText;
    ParseDecimal(220, "");
    ParseDecimal(500, "");
  }

  /** `localStorage.getItem(key)` as a JavaScript condition: present and not the empty string. */
  function Saved(store: map<string, string>, key: string): (r: Option<string>)
    ensures r.Some? <==> key in store && store[key] != ""
    ensures r.Some? ==> r.value == store[key]
  {
    if key in store && store[key] != "" then Some(store[key]) else None
  }

  /**
   * `getItem` after `setItem`: the written key reads back as the written text
   * (as a condition, so the empty string reads as nothing saved), and every
   * other key reads as before.
   */
  lemma SavedAfterWrite(store: map<string, string>, key: string, v: string, other: string)
    ensures Saved(store[key := v], other) ==
      if other == key then (if v == "" then None else Some(v)) else Saved(store, other)
  {
  }

  /**
   * `localStorage.getItem(KeyCollapsed) === 'true'`: the stored flag reads as
   * collapsed exactly when it holds the text a toggle writes for `true`.
   */
  function StoredCollapsed(store: map<string, string>): (r: bool)
    ensures r <==> Saved(store, KeyCollapsed) == Some(BoolText(true))
  {
    KeyCollapsed in store && store[KeyCollapsed] == "true"
  }

  /** Reading the flag back after storing `String(c)` gives `c`. */
  lemma StoredFlagRoundTrip(store: map<string, string>, c: bool)
    ensures StoredCollapsed(store[KeyCollapsed := BoolText(c)]) == c
  {
  }

  /** `String(b)` for a boolean, which is what `setItem` stores. */
  function BoolText(b: bool): (r: string)
    ensures r == "true" <==> b
  {
    if b then "true" else "false"
  }

  /** `setProperty('--sidebar-width', v)`: the empty string removes the property. */
  function SetWidth(v: string): (r: Option<string>)
    ensures r.Some? <==> v != ""
    ensures r.Some? ==> r.value == v
  {
    if v == "" then None else Some(v)
  }

  /** `getPropertyValue('--sidebar-width')`: the empty string when unset. */
  function WidthText(l: Layout): (r: string)
    ensures r == "" <==> l.width.None? || l.width == Some("")
    ensures l.width != Some("") ==> SetWidth(r) == l.width
  {
    match l.width
    case None => ""
    case Some(v) => v
  }

  /** `getPropertyValue` after `setProperty` reads back the text that was set. */
  lemma WidthAfterSet(l: Layout, v: string)
    ensures WidthText(l.(width := SetWidth(v))) == v
  {
  }

  /** A width text of the form "<n>px" with MIN_WIDTH <= n <= MAX_WIDTH. */
  predicate PxInRange(b: Bounds, v: string) {
    match ParseInt(v)
    case None => false
    case Some(n) => b.min <= n <= b.max && v == FormatPx(n)
  }

  /**
   * The clamp of the drag handler: raise to MIN_WIDTH, then lower to MAX_WIDTH.
   * Because the maximum is applied second, crossed bounds give MAX_WIDTH.
   */
  function DragClamp(b: Bounds, x: int): (r: int)
    ensures r <= b.max
    ensures b.min <= b.max ==> b.min <= r
    ensures b.min <= x <= b.max ==> r == x
    ensures b.min > b.max ==> r == b.max
  {
    var raised := if x < b.min then b.min else x;
    if raised > b.max then b.max else raised
  }

  /**
   * The clamp of start-up, `Math.max(MIN, Math.min(n, MAX))`: the minimum is
   * applied last, so crossed bounds give MIN_WIDTH.
   */
  function LoadClamp(b: Bounds, n: int): (r: int)
    ensures b.min <= r
    ensures b.min <= b.max ==> r <= b.max
    ensures b.min <= n <= b.max ==> r == n
    ensures b.min > b.max ==> r == b.min
  {
    var lowered := if n < b.max then n else b.max;
    if b.min > lowered then b.min else lowered
  }

  /** The text start-up writes for a saved width; unparsable text becomes `NaNpx`. */
  function LoadedWidthText(b: Bounds, saved: string): (r: string)
    ensures ParseInt(saved).None? ==> r == NaNPx
    ensures ParseInt(saved).Some? ==> r == FormatPx(LoadClamp(b, ParseInt(saved).value))
    ensures b.min <= b.max && ParseInt(saved).Some? ==> PxInRange(b, r)
  {
    match ParseInt(saved)
    case None => NaNPx
    case Some(n) =>
      ParseFormatPx(LoadClamp(b, n));
      FormatPx(LoadClamp(b, n))
  }

  /**
   * `initLayout`: the stored flag adds the collapsed class (never removes it);
   * a saved width is applied, clamped, only when the stored flag is not "true".
   */
  function Init(b: Bounds, page: Layout): (r: Layout)
    ensures r.collapsed <==> page.collapsed || StoredCollapsed(page.store)
    ensures r.store == page.store && r.dragging == page.dragging
    ensures StoredCollapsed(page.store) || Saved(page.store, KeyWidth).None? ==> r.width == page.width
    ensures !StoredCollapsed(page.store) && KeyWidth in page.store && page.store[KeyWidth] != "" ==>
      match ParseInt(page.store[KeyWidth])
      case None => r.width == Some(NaNPx)
      case Some(n) => r.width == Some(FormatPx(LoadClamp(b, n)))
  {
    var isCollapsed := StoredCollapsed(page.store);
    var withClass := page.(collapsed := page.collapsed || isCollapsed);
    match Saved(page.store, KeyWidth)
    case Some(saved) =>
      if isCollapsed then withClass
      else withClass.(width := SetWidth(LoadedWidthText(b, saved)))
    case None => withClass
  }

  /** The width a toggle restores: the saved text verbatim, else MIN_WIDTH in px. */
  function RestoredWidthText(b: Bounds, store: map<string, string>): (r: string)
    ensures r != ""
    ensures KeyWidth in store && store[KeyWidth] != "" ==> r == store[KeyWidth]
    ensures KeyWidth !in store || store[KeyWidth] == "" ==> r == FormatPx(b.min)
  {
    match Saved(store, KeyWidth)
    case Some(v) => v
    case None => FormatPx(b.min)
  }

  /**
   * `handleToggle`: flip the class, store the new flag, and on expanding put
   * back the saved width without clamping it.
   */
  function Toggle(b: Bounds, l: Layout): (r: Layout)
    ensures r.collapsed == !l.collapsed
    ensures r.store == l.store[KeyCollapsed := BoolText(r.collapsed)]
    ensures r.collapsed ==> r.width == l.width
    ensures !r.collapsed ==> r.width == Some(RestoredWidthText(b, l.store))
    ensures r.dragging == l.dragging
  {
    var isCollapsed := !l.collapsed;
    var store := l.store[KeyCollapsed := BoolText(isCollapsed)];
    var flipped := l.(collapsed := isCollapsed, store := store);
    if isCollapsed then flipped
    else flipped.(width := SetWidth(RestoredWidthText(b, store)))
  }

  /**
   * `startResize`: on a collapsed sidebar nothing happens; otherwise the
   * listeners are attached (attaching them again changes nothing).
   */
  function StartResize(l: Layout): (r: Layout)
    ensures r.dragging <==> l.dragging || !l.collapsed
    ensures r.(dragging := l.dragging) == l
  {
    if l.collapsed then l else l.(dragging := true)
  }

  /** `doResize`: apply the clamped pointer position live; nothing is stored. */
  function DoResize(b: Bounds, l: Layout, clientX: int): (r: Layout)
    ensures r.width == Some(FormatPx(DragClamp(b, clientX)))
    ensures r.(width := l.width) == l
  {
    l.(width := SetWidth(FormatPx(DragClamp(b, clientX))))
  }

  /** `stopResize`: detach the listeners and store the live width if there is one. */
  function StopResize(l: Layout): (r: Layout)
    ensures !r.dragging
    ensures r.collapsed == l.collapsed && r.width == l.width
    ensures l.width.Some? && l.width.value != "" ==> r.store == l.store[KeyWidth := l.width.value]
    ensures l.width.None? || l.width.value == "" ==> r.store == l.store
  {
    var current := WidthText(l);
    var detached := l.(dragging := false);
    if current != "" then detached.(store := l.store[KeyWidth := current]) else detached
  }
}
