# Sidebar layout: a Dafny model

This project models the sidebar controller of `assets/js/main-layout.js`: a
collapsible, resizable sidebar whose collapsed flag and width persist in
`localStorage` under the keys `sidebarCollapsed` and `sidebarWidth`. Once
DOMContentLoaded fires, the script checks that four elements exist
(`.page-wrapper`, `.sidebar`, `.sidebar-resizer`, `.sidebar-toggle-button`).
It wires a click handler that toggles the collapsed class and a mousedown
handler that starts a drag. During a drag it attaches document-level
mousemove and mouseup listeners that resize and then persist. Last, it runs
`initLayout` to restore the saved state.

Every handler runs to completion before the next event, so the model is a
set of pure transitions over one immutable state value:

- `SidebarLayout.Layout` holds four things. `collapsed` is the
  `sidebar-collapsed` class. `width` is the inline `--sidebar-width` text,
  with `None` for unset. `store` is `localStorage`. `dragging` says whether
  the mousemove/mouseup listeners are attached.
- `SidebarLayout.Bounds` holds MIN_WIDTH and MAX_WIDTH as integers.
- `Init`, `Toggle`, `StartResize`, `DoResize` and `StopResize` are the five
  handlers.
- `SidebarSession` adds three things: the missing-element guard (`Boot`),
  event dispatch (`Step`, which forwards mousemove/mouseup only while
  dragging), and runs over event sequences.
- `JsText` models two conversions. One is ECMAScript `parseInt` without a
  radix: it skips white space, reads a sign and a `0x` prefix, takes the
  longest digit run, and gives `NaN` (as `None`) when there are no digits.
  The other is the `${n}px` template.

The width is kept as text, not as a number. A toggle restores the stored
text verbatim, and start-up can apply the text `NaNpx`, so an integer cannot
represent every value the page can hold.

Files: `wrappers.dfy` (Option), `js_text.dfy` (`parseInt`, `${n}px`),
`sidebar_layout.dfy` (state and handlers), `sidebar_session.dfy` (guard,
dispatch, reachable-state invariant), `sidebar_properties.dfy` (properties
over several handlers or events).

## Behaviour a reader may not expect

The model follows the code in each of these cases:

- A malformed saved width is not ignored. `parseInt` returns `NaN`, so
  `Math.max(MIN, Math.min(NaN, MAX))` is `NaN` and start-up applies
  `"NaNpx"`. A click on the resizer without a move then writes `"NaNpx"`
  back to storage (`MalformedWidthIsKeptAsNaN`).
- A toggle does not clamp. Expanding applies the stored text as it is, or
  `${MIN_WIDTH}px` when nothing is stored. An out-of-range stored width is
  clamped at start-up but shows unclamped after two toggles
  (`ToggleRestoresUnclampedWidth`).
- Two toggles restore the collapsed flag. They restore the width only when
  it already equalled the text a toggle restores (`TwoTogglesRestoreFlag`).
- The two clamps differ when MIN_WIDTH > MAX_WIDTH. The drag handler
  applies its maximum second and gives MAX_WIDTH. Start-up applies its
  minimum last and gives MIN_WIDTH. So the drag-then-reload round trip
  holds only for ordered bounds (`DragThenReload`,
  `CrossedBoundsBreakReload`).
- `initLayout` only adds the collapsed class. A class already present in the
  markup stays, and the width branch looks at the stored flag, not the
  class. `FreshPage` is a page without the class and without an inline width.

## Model

| member | source | states |
|---|---|---|
| JsText.TrimStart | assets/js/main-layout.js:29 | `parseInt` strips exactly a prefix of white-space code points, and what is left does not start with one |
| JsText.DigitRun | assets/js/main-layout.js:29 | the digits `parseInt` reads are the longest prefix made of digits of the radix |
| JsText.NatToDecimal | assets/js/main-layout.js:65 | the decimal text written for a width is non-empty, all digits, has no leading zero, and denotes the number |
| JsText.ParseDecimal | assets/js/main-layout.js:15-16 | `parseInt` reads back the decimal text of any integer, whatever non-digit (other than x) follows it |
| JsText.DecimalSplit | assets/js/main-layout.js:30 | the decimal text of n followed by more text is the sign (only for negative n), then the numeral of the magnitude, then that text |
| JsText.ParseInt | assets/js/main-layout.js:29 | `parseInt` gives `NaN` for text whose first character is not white space, a sign or a decimal digit ("auto", "wide", "calc(...)") |
| JsText.IntToDecimal | assets/js/main-layout.js:65 | `String(n)` of an integer is non-empty and starts with "-" exactly when n is negative |
| JsText.FormatPx | assets/js/main-layout.js:65 | `${n}px` ends in "px" and starts with "-" exactly when n is negative; `JsText.ParseFormatPx` reads it back |
| JsText.ParseFormatPx | assets/js/main-layout.js:29-30 | a width written as `${n}px` is read back by `parseInt` as n |
| JsText.FormatPxInjective | assets/js/main-layout.js:30 | distinct widths are written as distinct texts |
| SidebarLayout.CssBound | assets/js/main-layout.js:15-16 | a non-empty style value is read with `parseInt`; an empty one falls back to "220" for the minimum and "500" for the maximum, which read as 220 and 500 |
| SidebarLayout.DefaultTextsParse | assets/js/main-layout.js:15-16 | the fallback texts "220" and "500" read as 220 and 500 |
| SidebarLayout.StoredCollapsed | assets/js/main-layout.js:21 | the stored flag reads as collapsed exactly when its saved text is what a toggle stores for `true` |
| SidebarLayout.StoredFlagRoundTrip | assets/js/main-layout.js:21-37 | storing `String(c)` under the flag key and reading it back with `=== 'true'` gives c |
| SidebarLayout.WidthText | assets/js/main-layout.js:73 | reading the width gives "" exactly when it is unset, and setting the read text back leaves the width as it was |
| SidebarLayout.SavedAfterWrite | assets/js/main-layout.js:37-41 | after `setItem(key, v)`, `getItem` as a condition reads `v` for that key (nothing when `v` is empty) and reads every other key as before, so the toggle's write of the flag leaves the saved width it then reads unchanged |
| SidebarLayout.BoolText | assets/js/main-layout.js:37 | the stored flag text is "true" exactly for a collapsed sidebar |
| SidebarLayout.WidthAfterSet | assets/js/main-layout.js:65-73 | `getPropertyValue` after `setProperty(v)` reads back exactly `v`, so `stopResize` sees the width `doResize` applied (and an empty `v` reads back as the empty string) |
| SidebarLayout.DragClamp | assets/js/main-layout.js:58-63 | the live width is at most MAX_WIDTH, at least MIN_WIDTH when the bounds are ordered, the pointer position itself when in range, and MAX_WIDTH when the bounds cross |
| SidebarLayout.LoadClamp | assets/js/main-layout.js:29 | the start-up width is at least MIN_WIDTH, at most MAX_WIDTH when the bounds are ordered, the saved number when in range, and MIN_WIDTH when the bounds cross |
| SidebarLayout.LoadedWidthText | assets/js/main-layout.js:29-30 | an unparsable saved width yields "NaNpx"; a parsable n yields `${Math.max(MIN, Math.min(n, MAX))}px`, which is an in-range "<n>px" when the bounds are ordered |
| SidebarLayout.Init | assets/js/main-layout.js:19-32 | the class is set when the stored flag is "true" and never removed; the width is untouched when the flag is "true" or nothing is saved, else it is the clamped saved width or "NaNpx"; storage and drag state are untouched |
| SidebarLayout.RestoredWidthText | assets/js/main-layout.js:41 | a toggle restores the saved text verbatim, or MIN_WIDTH in px when nothing non-empty is saved |
| SidebarLayout.Toggle | assets/js/main-layout.js:35-44 | the class is negated and the new flag stored; collapsing keeps the width; expanding applies the restored text |
| SidebarLayout.StartResize | assets/js/main-layout.js:47-56 | only the drag flag can change, and it becomes set exactly when the sidebar is expanded (or it already was) |
| SidebarLayout.DoResize | assets/js/main-layout.js:58-66 | the width becomes the clamped pointer position in px; nothing else, storage included, changes |
| SidebarLayout.StopResize | assets/js/main-layout.js:68-77 | the drag ends; a set width is written to the width key; with no width the storage is unchanged |
| SidebarSession.Step | assets/js/main-layout.js:80-81 | mousemove and mouseup without a drag change nothing; mousedown on a collapsed sidebar changes nothing; only clicks change the class; moves and mousedowns never write storage |
| SidebarSession.Boot | assets/js/main-layout.js:7-10 | the page is left inert exactly when an element is missing; otherwise it is wired with the storage as it was |
| SidebarSession.Deliver | assets/js/main-layout.js:80-81 | an inert page ignores every event; a wired page stays wired with the same bounds, and only clicks and mouseups change its storage |
| SidebarSession.Run | assets/js/main-layout.js:54-55 | a run of events never wires an inert page or unwires a wired one, and keeps the bounds |
| SidebarSession.RunConcat | assets/js/main-layout.js:80-81 | running two event sequences one after the other equals running their concatenation |
| SidebarSession.InertStaysInert | assets/js/main-layout.js:7-10 | an inert page is unchanged by any sequence of events |
| SidebarSession.MissingElementDisablesEverything | assets/js/main-layout.js:7-10 | with any element missing, no event sequence changes the class, the width or the storage |
| SidebarSession.InitHealthy | assets/js/main-layout.js:19-32 | start-up on a fresh page whose stored width is absent or in range gives a page whose class matches the stored flag and whose widths are in range |
| SidebarSession.ToggleHealthy | assets/js/main-layout.js:35-44 | a toggle keeps the class in step with the stored flag and every width in range |
| SidebarSession.StopResizeHealthy | assets/js/main-layout.js:68-77 | ending a drag keeps the class in step with the stored flag and every width in range |
| SidebarSession.StepHealthy | assets/js/main-layout.js:47-77 | every handler preserves that invariant when MIN_WIDTH <= MAX_WIDTH |
| SidebarSession.RunHealthy | assets/js/main-layout.js:79-81 | the invariant holds after any sequence of events |
| SidebarSession.ReachableHealthy | assets/js/main-layout.js:1-85 | from a fresh page whose stored width is absent or in range, every reachable page has matching class and flag and only in-range "<n>px" widths |
| SidebarProperties.ClampsPickNearestWidth | assets/js/main-layout.js:58-63 | with ordered bounds the drag clamp is the in-range width nearest the pointer, and the start-up clamp agrees with it |
| SidebarProperties.FreshInitCollapsedIffStored | assets/js/main-layout.js:21-24 | on a fresh page the sidebar starts collapsed exactly when the stored flag is "true" |
| SidebarProperties.TwoTogglesRestoreFlag | assets/js/main-layout.js:35-44 | on any page, two toggles restore the class, leave storage with the flag of the original class, and leave the restored text as the width, so they restore the width exactly when it was that text; on a page whose class matches the stored flag they restore the stored flag |
| SidebarProperties.TwoTogglesStore | assets/js/main-layout.js:37 | the second toggle's flag write overwrites the first, leaving the flag of the original class |
| SidebarProperties.RestoredWidthIgnoresFlag | assets/js/main-layout.js:37-41 | writing the flag does not change the width a later toggle restores |
| SidebarProperties.DragThenReload | assets/js/main-layout.js:58-77 | on an expanded page, a drag to x stores `${clamp(x)}px`, which parses to an in-range clamp(x), and a reload applies the same width |
| SidebarProperties.CrossedBoundsBreakReload | assets/js/main-layout.js:29-63 | with MIN_WIDTH > MAX_WIDTH a drag stores MAX_WIDTH but the reload applies MIN_WIDTH, a different width |
| SidebarProperties.MalformedWidthIsKeptAsNaN | assets/js/main-layout.js:27-31 | an unparsable saved width is applied as "NaNpx", and a click on the resizer without a move stores "NaNpx" |
| SidebarProperties.WordWidthIsMalformed | assets/js/main-layout.js:29 | a stored "wide" does not parse |
| SidebarProperties.ToggleRestoresUnclampedWidth | assets/js/main-layout.js:40-42 | with bounds 220..500 and "900px" stored, start-up applies "500px" but two toggles apply "900px" |
| SidebarProperties.StartupClampsStoredWidth | assets/js/main-layout.js:28-30 | with bounds 220..500 and "900px" stored, a fresh start-up stays expanded and applies "500px" without writing storage |
| SidebarProperties.Walkthrough | assets/js/main-layout.js:19-77 | bounds 220..500, empty storage: width stays unset; a drag to 150 applies and stores "220px"; a toggle stores "true"; a second toggle applies "220px" |
| SidebarProperties.WalkthroughDrag | assets/js/main-layout.js:47-77 | bounds 220..500, empty storage: mousedown, a move to 150 and mouseup apply and store "220px" and end the drag |
| SidebarProperties.WalkthroughToggles | assets/js/main-layout.js:35-44 | from that page, a toggle collapses and stores "true", and a second toggle expands and applies "220px" |

## Left out

- DOM querying, `classList` mechanics and `getComputedStyle` are replaced by the `Elements` flags, the `collapsed` field and integer `Bounds`.
- `CssBound` models `parseInt(value || default)` for the bounds, but the layout takes integer bounds, so a bound that is not numeric (`NaN`) is not modelled. In the source such a bound is simply skipped by the `<` and `>` tests of `doResize` (assets/js/main-layout.js:62-63), which then never writes `"NaNpx"`; only the start-up clamp (assets/js/main-layout.js:29) and the toggle's fallback `${MIN_WIDTH}px` (assets/js/main-layout.js:41) would apply `"NaNpx"`.
- `console.warn` (line 8) and `e.preventDefault()` (line 53) change no state.
- Listener registration is the `dragging` flag. Attaching the same listener twice changes nothing, which matches `addEventListener`.
- `clientX` is an integer here; the browser reports a floating-point number.
- DragThenReload: relies on the integer `clientX`. With `clientX` 312.5, `doResize` applies and stores `"312.5px"`, and a reload applies `"312px"`, because `parseInt` stops at the decimal point.
- Number-to-text conversion is modelled for integers only. The exponent form JavaScript uses from 10^21 upward is not modelled.
- `parseInt` results are exact integers. Rounding to a double above 2^53 is not modelled; clamping to bounds below 2^53 hides it. The sign of `-0` is not modelled either, and it cannot show: `${-0}px` is `"0px"`, the same text as for `0`.
- `setProperty` is modelled as applying any non-empty text verbatim. CSS's rejection of some token sequences and its white-space trimming are not modelled.
- `localStorage` exceptions (quota, storage disabled) and writes from other tabs are not modelled.
- Mouse button identity is not modelled. Any mousedown on the resizer starts a drag, as in the source.
