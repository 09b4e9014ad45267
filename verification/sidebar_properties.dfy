/**
 * Properties of the sidebar that relate several handlers or several events:
 * the two clamps, toggling twice, the drag-then-reload round trip, and the
 * places where the code departs from what a reader might expect.
 */
module SidebarProperties {
  import opened Wrappers
  import opened JsText
  import opened SidebarLayout
  import opened SidebarSession

  /**
   * The drag clamp picks the point of [MIN_WIDTH, MAX_WIDTH] nearest to the
   * pointer, and the start-up clamp agrees with it when the bounds are ordered.
   */
  lemma ClampsPickNearestWidth(b: Bounds, x: int, y: int)
    requires b.min <= b.max
    requires b.min <= y <= b.max
    ensures var c := DragClamp(b, x);
      (if c <= x then x - c else c - x) <= (if y <= x then x - y else y - x)
    ensures LoadClamp(b, x) == DragClamp(b, x)
  {
  }

  /** On a fresh page the sidebar starts collapsed exactly when the stored flag is "true". */
  lemma FreshInitCollapsedIffStored(b: Bounds, store: map<string, string>)
    ensures Init(b, FreshPage(store)).collapsed <==> (KeyCollapsed in store && store[KeyCollapsed] == "true")
    ensures Init(b, FreshPage(store)).store == store
    ensures !Init(b, FreshPage(store)).dragging
  {
  }

  /**
   * Two toggles bring back the collapsed class and the stored flag, and leave
   * the width at the restored text; so the width before them comes back
   * exactly when it already was that text.
   */
  lemma TwoTogglesRestoreFlag(b: Bounds, l: Layout)
    ensures Toggle(b, Toggle(b, l)).collapsed == l.collapsed
    ensures Toggle(b, Toggle(b, l)).store == l.store[KeyCollapsed := BoolText(l.collapsed)]
    ensures FlagInSync(l) ==> StoredCollapsed(Toggle(b, Toggle(b, l)).store) == StoredCollapsed(l.store)
    ensures Toggle(b, Toggle(b, l)).width == Some(RestoredWidthText(b, l.store))
    ensures Toggle(b, Toggle(b, l)).width == l.width <==> l.width == Some(RestoredWidthText(b, l.store))
  {
    var once := Toggle(b, l);
    var twice := Toggle(b, once);
    TwoTogglesStore(b, l);
    RestoredWidthIgnoresFlag(b, l.store, !l.collapsed);
    if l.collapsed {
      assert twice.width == once.width;
    } else {
      assert twice.width == Some(RestoredWidthText(b, once.store));
    }
  }

  /** The second toggle's write of the flag overwrites the first's. */
  lemma TwoTogglesStore(b: Bounds, l: Layout)
    ensures Toggle(b, Toggle(b, l)).store == l.store[KeyCollapsed := BoolText(l.collapsed)]
  {
    var once := Toggle(b, l);
    assert once.store == l.store[KeyCollapsed := BoolText(!l.collapsed)];
    assert Toggle(b, once).store == once.store[KeyCollapsed := BoolText(l.collapsed)];
  }

  /** Writing the flag does not change the width a toggle restores. */
  lemma RestoredWidthIgnoresFlag(b: Bounds, store: map<string, string>, c: bool)
    ensures RestoredWidthText(b, store[KeyCollapsed := BoolText(c)]) == RestoredWidthText(b, store)
  {
    SavedAfterWrite(store, KeyCollapsed, BoolText(c), KeyWidth);
  }

  /**
   * Drag round trip: on an expanded page, mousedown on the resizer, a move to
   * `x` and mouseup store `${clamp(x)}px`, and a reload of that storage applies
   * the same width again.
   */
  lemma DragThenReload(b: Bounds, l: Layout, x: int)
    requires b.min <= b.max
    requires !l.collapsed && FlagInSync(l)
    ensures var r := Step(b, Step(b, Step(b, l, ResizerMouseDown), MouseMove(x)), MouseUp);
      && !r.dragging
      && KeyWidth in r.store && r.store[KeyWidth] == FormatPx(DragClamp(b, x))
      && ParseInt(r.store[KeyWidth]) == Some(DragClamp(b, x))
      && b.min <= DragClamp(b, x) <= b.max
      && Init(b, FreshPage(r.store)).width == Some(FormatPx(DragClamp(b, x)))
  {
    var c := DragClamp(b, x);
    var r := Step(b, Step(b, Step(b, l, ResizerMouseDown), MouseMove(x)), MouseUp);
    ParseFormatPx(c);
    var moved := Step(b, Step(b, l, ResizerMouseDown), MouseMove(x));
    WidthAfterSet(l, FormatPx(c));
    assert WidthText(moved) == FormatPx(c);
    assert r.store == l.store[KeyWidth := FormatPx(c)];
    SavedAfterWrite(l.store, KeyWidth, FormatPx(c), KeyWidth);
    assert !StoredCollapsed(r.store) by {
      assert KeyWidth != KeyCollapsed;
    }
    assert LoadClamp(b, c) == c;
  }

  /**
   * With MIN_WIDTH > MAX_WIDTH the round trip breaks: a drag applies and
   * stores MAX_WIDTH, and the reload applies MIN_WIDTH instead.
   */
  lemma CrossedBoundsBreakReload(b: Bounds, l: Layout, x: int)
    requires b.min > b.max
    requires !l.collapsed && FlagInSync(l)
    ensures var r := Step(b, Step(b, Step(b, l, ResizerMouseDown), MouseMove(x)), MouseUp);
      && r.store[KeyWidth] == FormatPx(b.max)
      && Init(b, FreshPage(r.store)).width == Some(FormatPx(b.min))
      && Init(b, FreshPage(r.store)).width != r.width
  {
    var r := Step(b, Step(b, Step(b, l, ResizerMouseDown), MouseMove(x)), MouseUp);
    ParseFormatPx(b.max);
    FormatPxInjective(b.min, b.max);
    assert !StoredCollapsed(r.store) by {
      assert KeyWidth != KeyCollapsed;
    }
  }

  /**
   * A saved width `parseInt` cannot read is not ignored: start-up applies
   * "NaNpx", and a click on the resizer without a move stores it back.
   */
  lemma MalformedWidthIsKeptAsNaN(b: Bounds, store: map<string, string>, v: string)
    requires !StoredCollapsed(store)
    requires KeyWidth in store && store[KeyWidth] == v
    requires v != "" && ParseInt(v) == None
    ensures Init(b, FreshPage(store)).width == Some(NaNPx)
    ensures Step(b, Step(b, Init(b, FreshPage(store)), ResizerMouseDown), MouseUp).store
      == store[KeyWidth := NaNPx]
  {
  }

  /** A stored width of "wide" is malformed in this sense. */
  lemma WordWidthIsMalformed()
    ensures ParseInt("wide") == None
  {
  }

  /**
   * Start-up clamps a saved width, but a toggle puts the saved text back
   * unclamped: with bounds 220..500 and "900px" stored, the page starts at
   * "500px" and shows "900px" after collapsing and expanding.
   */
  lemma ToggleRestoresUnclampedWidth()
    ensures var b := Bounds(220, 500);
      var page := Init(b, FreshPage(map[KeyWidth := "900px"]));
      && page.width == Some("500px")
      && Toggle(b, Toggle(b, page)).width == Some("900px")
  {
    var b := Bounds(220, 500);
    var store := map[KeyWidth := "900px"];
    StartupClampsStoredWidth();
    var page := Init(b, FreshPage(store));
    assert Toggle(b, Toggle(b, page)).width == Some(RestoredWidthText(b, store));
  }

  /** The texts the concrete scenarios below write. */
  lemma PxTexts()
    ensures FormatPx(220) == "220px" && FormatPx(500) == "500px" && FormatPx(900) == "900px"
  {
    PxText220();
    PxText500();
    PxText900();
  }

  lemma PxText220() ensures FormatPx(220) == "220px" { assert NatToDecimal(220) == "220"; }
  lemma PxText500() ensures FormatPx(500) == "500px" { assert NatToDecimal(500) == "500"; }
  lemma PxText900() ensures FormatPx(900) == "900px" { assert NatToDecimal(900) == "900"; }

  lemma StartupClampsStoredWidth()
    ensures Init(Bounds(220, 500), FreshPage(map[KeyWidth := "900px"])).width == Some("500px")
    ensures Init(Bounds(220, 500), FreshPage(map[KeyWidth := "900px"])).store == map[KeyWidth := "900px"]
    ensures !Init(Bounds(220, 500), FreshPage(map[KeyWidth := "900px"])).collapsed
  {
    var b := Bounds(220, 500);
    PxTexts();
    assert ParseInt("900px") == Some(900) by {
      ParseFormatPx(900);
    }
    assert LoadClamp(b, 900) == 500;
    assert LoadedWidthText(b, "900px") == "500px";
  }

  /**
   * The walkthrough with bounds 220..500 and empty storage: the width stays
   * unset, a drag to x = 150 applies and stores "220px", a toggle stores
   * "true", and a second toggle applies "220px" again.
   */
  lemma Walkthrough()
    ensures var b := Bounds(220, 500);
      var s0 := Boot(Elements(true, true, true, true), b, FreshPage(map[]));
      var s1 := Run(s0, [ResizerMouseDown, MouseMove(150), MouseUp]);
      var s2 := Run(s1, [ToggleClick]);
      var s3 := Run(s2, [ToggleClick]);
      && s0.layout.width == None && !s0.layout.collapsed
      && s1.layout.width == Some("220px") && s1.layout.store[KeyWidth] == "220px"
      && s2.layout.collapsed && s2.layout.store[KeyCollapsed] == "true"
      && !s3.layout.collapsed && s3.layout.width == Some("220px")
  {
    var b := Bounds(220, 500);
    var s0 := Boot(Elements(true, true, true, true), b, FreshPage(map[]));
    assert s0 == Wired(b, FreshPage(map[]));
    WalkthroughDrag();
    var l1 := Layout(false, Some("220px"), map[KeyWidth := "220px"], false);
    WalkthroughToggles(l1);
  }

  lemma WalkthroughDrag()
    ensures Run(Wired(Bounds(220, 500), FreshPage(map[])), [ResizerMouseDown, MouseMove(150), MouseUp])
      == Wired(Bounds(220, 500), Layout(false, Some("220px"), map[KeyWidth := "220px"], false))
  {
    var b := Bounds(220, 500);
    var l0 := Layout(false, None, map[], true);
    var l1 := Layout(false, Some("220px"), map[], true);
    var l2 := Layout(false, Some("220px"), map[KeyWidth := "220px"], false);
    assert Step(b, FreshPage(map[]), ResizerMouseDown) == l0;
    assert Step(b, l0, MouseMove(150)) == l1 by {
      assert DragClamp(b, 150) == 220;
      PxText220();
    }
    assert Step(b, l1, MouseUp) == l2;
    var evs := [ResizerMouseDown, MouseMove(150), MouseUp];
    assert Run(Wired(b, l2), evs[1..][1..][1..]) == Wired(b, l2);
    assert Run(Wired(b, l1), evs[1..][1..]) == Wired(b, l2);
    assert Run(Wired(b, l0), evs[1..]) == Wired(b, l2);
  }

  lemma WalkthroughToggles(l: Layout)
    requires l == Layout(false, Some("220px"), map[KeyWidth := "220px"], false)
    ensures var b := Bounds(220, 500);
      var s2 := Run(Wired(b, l), [ToggleClick]);
      var s3 := Run(s2, [ToggleClick]);
      && s2.layout.collapsed && s2.layout.store[KeyCollapsed] == "true"
      && !s3.layout.collapsed && s3.layout.width == Some("220px")
  {
    var b := Bounds(220, 500);
    assert [ToggleClick][1..] == [];
    var l2 := Toggle(b, l);
    assert Run(Wired(b, l), [ToggleClick]) == Wired(b, l2);
    assert Run(Wired(b, l2), [ToggleClick]) == Wired(b, Toggle(b, l2));
  }
}
