/**
 * The script as a whole: the guard on the four page elements, then a stream
 * of browser events, each handled to completion before the next one. The
 * toggle button's click and the resizer's mousedown are always listened to;
 * mousemove and mouseup reach the resize handlers only while a drag has
 * them attached.
 */
module SidebarSession {
  import opened Wrappers
  import opened JsText
  import opened SidebarLayout

  /** Which of `.page-wrapper`, `.sidebar`, `.sidebar-resizer`, `.sidebar-toggle-button` exist. */
  datatype Elements = Elements(pageWrapper: bool, sidebar: bool, resizer: bool, toggleButton: bool)

  predicate AllPresent(els: Elements) {
    els.pageWrapper && els.sidebar && els.resizer && els.toggleButton
  }

  datatype Event =
    | ToggleClick              // click on the toggle button
    | ResizerMouseDown         // mousedown on the resizer
    | MouseMove(clientX: int)  // mousemove anywhere in the document
    | MouseUp                  // mouseup anywhere in the document

  /** A page where the script gave up (`Inert`) or wired its handlers (`Wired`). */
  datatype Session =
    | Inert(page: Layout)
    | Wired(bounds: Bounds, layout: Layout)

  /** One event delivered to a wired page. */
  function Step(b: Bounds, l: Layout, e: Event): (r: Layout)
    ensures !l.dragging && (e.MouseMove? || e.MouseUp?) ==> r == l
    ensures e.ResizerMouseDown? && l.collapsed ==> r == l
    ensures !e.ToggleClick? ==> r.collapsed == l.collapsed
    ensures e.MouseMove? || e.ResizerMouseDown? ==> r.store == l.store
  {
    match e
    case ToggleClick => Toggle(b, l)
    case ResizerMouseDown => StartResize(l)
    case MouseMove(x) => if l.dragging then DoResize(b, l, x) else l
    case MouseUp => if l.dragging then StopResize(l) else l
  }

  /** DOMContentLoaded: bail out if an element is missing, else wire and run `initLayout`. */
  function Boot(els: Elements, b: Bounds, page: Layout): (s: Session)
    ensures !AllPresent(els) <==> s == Inert(page)
    ensures AllPresent(els) ==> s.Wired? && s.bounds == b && s.layout.store == page.store
  {
    if !AllPresent(els) then Inert(page) else Wired(b, Init(b, page))
  }

  /** One event delivered to the page: an inert page ignores it; only clicks and mouseups write storage. */
  function Deliver(s: Session, e: Event): (r: Session)
    ensures s.Inert? ==> r == s
    ensures s.Wired? ==> r.Wired? && r.bounds == s.bounds
    ensures s.Wired? && r.layout.store != s.layout.store ==> e.ToggleClick? || e.MouseUp?
  {
    match s
    case Inert(page) => s
    case Wired(b, l) => Wired(b, Step(b, l, e))
  }

  /** Events delivered one after another, each to completion. */
  function Run(s: Session, events: seq<Event>): (r: Session)
    ensures r.Inert? <==> s.Inert?
    ensures r.Wired? ==> r.bounds == s.bounds
    decreases |events|
  {
    if |events| == 0 then s else Run(Deliver(s, events[0]), events[1..])
  }

  /** Running two event sequences one after the other is running their concatenation. */
  lemma {:induction false} RunConcat(s: Session, first: seq<Event>, second: seq<Event>)
    ensures Run(s, first + second) == Run(Run(s, first), second)
    decreases |first|
  {
    if |first| == 0 {
      assert first + second == second;
    } else {
      assert (first + second)[1..] == first[1..] + second;
      RunConcat(Deliver(s, first[0]), first[1..], second);
    }
  }

  /** An inert page ignores every event sequence. */
  lemma {:induction false} InertStaysInert(page: Layout, events: seq<Event>)
    ensures Run(Inert(page), events) == Inert(page)
    decreases |events|
  {
    if |events| > 0 {
      InertStaysInert(page, events[1..]);
    }
  }

  /**
   * With any element missing nothing is ever wired: whatever events follow,
   * the class, the width and the storage stay as the page had them.
   */
  lemma MissingElementDisablesEverything(els: Elements, b: Bounds, page: Layout, events: seq<Event>)
    requires !AllPresent(els)
    ensures Run(Boot(els, b, page), events) == Inert(page)
  {
    InertStaysInert(page, events);
  }

  /** The collapsed class and the stored flag agree. */
  predicate FlagInSync(l: Layout) {
    l.collapsed <==> StoredCollapsed(l.store)
  }

  /** The stored width, if any, is a well-formed in-range "<n>px". */
  predicate StoreInRange(b: Bounds, store: map<string, string>) {
    KeyWidth in store ==> PxInRange(b, store[KeyWidth])
  }

  /** The applied and the stored width, where present, are well-formed and in range. */
  predicate WidthsInRange(b: Bounds, l: Layout) {
    && (l.width.Some? ==> PxInRange(b, l.width.value))
    && StoreInRange(b, l.store)
  }

  predicate Healthy(b: Bounds, l: Layout) {
    FlagInSync(l) && WidthsInRange(b, l)
  }

  /** A fresh page over a store whose width entry is absent or in range starts healthy. */
  lemma InitHealthy(b: Bounds, store: map<string, string>)
    requires b.min <= b.max
    requires StoreInRange(b, store)
    ensures Healthy(b, Init(b, FreshPage(store)))
  {
  }

  lemma ToggleHealthy(b: Bounds, l: Layout)
    requires b.min <= b.max
    requires Healthy(b, l)
    ensures Healthy(b, Toggle(b, l))
  {
    var r := Toggle(b, l);
    assert KeyWidth != KeyCollapsed;
    assert StoreInRange(b, r.store);
    if !r.collapsed {
      var w := RestoredWidthText(b, l.store);
      if KeyWidth !in l.store || l.store[KeyWidth] == "" {
        ParseFormatPx(b.min);
        assert PxInRange(b, w);
      }
    }
  }

  lemma StopResizeHealthy(b: Bounds, l: Layout)
    requires Healthy(b, l)
    ensures Healthy(b, StopResize(l))
  {
  }

  /** Every handler keeps a healthy page healthy, given MIN_WIDTH <= MAX_WIDTH. */
  lemma StepHealthy(b: Bounds, l: Layout, e: Event)
    requires b.min <= b.max
    requires Healthy(b, l)
    ensures Healthy(b, Step(b, l, e))
  {
    match e
    case ToggleClick =>
      ToggleHealthy(b, l);
    case ResizerMouseDown =>
    case MouseMove(x) =>
      ParseFormatPx(DragClamp(b, x));
    case MouseUp =>
      StopResizeHealthy(b, l);
  }

  /** Healthy pages stay healthy over any sequence of events. */
  lemma {:induction false} RunHealthy(b: Bounds, l: Layout, events: seq<Event>)
    requires b.min <= b.max
    requires Healthy(b, l)
    ensures Run(Wired(b, l), events).Wired?
    ensures Run(Wired(b, l), events).bounds == b
    ensures Healthy(b, Run(Wired(b, l), events).layout)
    decreases |events|
  {
    if |events| > 0 {
      StepHealthy(b, l, events[0]);
      RunHealthy(b, Step(b, l, events[0]), events[1..]);
    }
  }

  /**
   * From a fresh page whose stored width is absent or in range, after any
   * events the collapsed class matches the stored flag and every applied or
   * stored width is an in-range "<n>px".
   */
  lemma ReachableHealthy(els: Elements, b: Bounds, store: map<string, string>, events: seq<Event>)
    requires AllPresent(els)
    requires b.min <= b.max
    requires StoreInRange(b, store)
    ensures Run(Boot(els, b, FreshPage(store)), events).Wired?
    ensures Healthy(b, Run(Boot(els, b, FreshPage(store)), events).layout)
  {
    InitHealthy(b, store);
    RunHealthy(b, Init(b, FreshPage(store)), events);
  }
}
