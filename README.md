# Markdown live preview: a Dafny model of the page logic

The editor is a single page. A markdown source pane sits on the left and the
rendered preview on the right, with a draggable divider between them. This
project models the logic that the page's `init` closure sets up:

- **Split-pane layout** (`layout.dfy`, module `Layout`). The divider's mouse
  handlers and the window-resize handler write two closure variables (the
  drag flag and the last dragged left-pane ratio), the two pane widths, and a
  few visual flags.
  - Each handler is a function on the `Panes` value.
  - Class `SplitPane` runs the handlers in place on its fields and is proved
    against those functions.
  - Event traces (`Run`) carry the layout invariant: the panes fill the
    container and neither drops under the 100px minimum.
- **Editing session** (`session_controller.dfy`, `session_store.dfy`,
  `scroll_sync.dfy`, `template.dfy`).
  - Class `Session` holds the editor content, the sticky "edited" flag, the
    scroll-sync toggle and its checkbox, the persisted store, the rendered
    output and the two columns' scroll offsets.
  - Its methods are startup, the content-change handler, `presetValue`, reset
    with its confirmation prompt, the scroll-sync toggle, and the
    editor-scroll handler.
  - The persisted store is a map from (namespace, key) to a value. The
    content and the scroll setting live in two independent slots.
  - The scroll mapping is computed on JavaScript numbers (`js.dfy`, module
    `Js`), so the unguarded division can produce NaN or an infinity.
  - The built-in template is the constant `Template.DefaultInput`.
- **PDF export** (`pdf_export.dfy`, module `PdfExport`).
  - The blank-output check uses `String.prototype.trim`.
  - The `YYYYMMDD-HHMMSS` timestamp is built from `toString` and
    `padStart(2, "0")`, and it reads back to the time it was made from.
  - The default options record is built in place (class `PdfOptions`). The
    dialog's choices are merged into it: the file-name prefix always, the
    orientation only when it is `portrait` or `landscape`, and the margin
    only when it is a number not below 0.

The model follows the code, including where it behaves in ways one might
not expect:

- A double click halves the panes but does not touch the stored ratio. A
  later resize therefore brings back the last dragged proportion
  (`Layout.DoubleClickForgottenByResize`).
- A resize does not clamp to the minimum width. A pane dragged to 100px
  falls under it when the window shrinks
  (`Layout.ShrinkingWindowUndercutsMinimum`).
- The scroll division is not guarded. With no editor overflow the target is
  NaN or infinite, and the preview is scrolled to its top
  (`ScrollSync.DegenerateEditorScrollsPreviewToTop`).
- The "edited" flag is sticky. Editing the text back to the template still
  prompts on reset (`SessionController.ResetWalkthrough`).
- A saved empty text is falsy, so a reload shows the template instead
  (`SessionStore.ReloadRestoresContent`).

## Model

| member | source | states |
|---|---|---|
| Js.Divide | src/main.js:134-135 | IEEE division: the result is finite iff the divisor is non-zero, and then times the divisor gives the dividend; 0/0 is NaN; positive/0 is +Infinity |
| Js.Scale | src/main.js:138-140 | multiplying a number by a finite factor: finite iff the number is, with the product as its value; NaN for NaN or for zero times an infinity; a non-zero multiple of an infinity is the infinity whose sign is the product of the signs |
| Layout.ClampLeft | src/main.js:436-438 | the dragged left width is at least 100; at most available-100 when the container holds two minimum panes, and exactly 100 when it does not; the pointer offset itself when that is within bounds, 100 for a pointer at or left of 100, and available-100 for a pointer at or right of available-100 in a container that holds two minimum panes |
| Layout.MouseEnter | src/main.js:401-403 | hover is set; nothing else changes |
| Layout.MouseLeave | src/main.js:405-409 | hover is cleared only when no drag is in progress; otherwise nothing changes |
| Layout.MouseDown | src/main.js:411-415 | a drag starts, the divider is active and the cursor is col-resize; nothing else changes |
| Layout.DoubleClick | src/main.js:417-425 | both panes get the same width, together with the divider they fill the container; the stored ratio is not changed |
| Layout.MouseMove | src/main.js:427-442 | without a drag nothing changes; during a drag the left width is ClampLeft of the pointer's offset, the panes fill the container, the left one is at least 100, the stored ratio times the available width is the left width, and with room for two minimum panes the right one is at least 100 and the ratio lies strictly between 0 and 1 |
| Layout.MouseUp | src/main.js:444-452 | ends a drag and clears active, hover, cursor and user-select; without a drag nothing changes |
| Layout.Resize | src/main.js:454-465 | widths come from the stored ratio alone: the left pane is ratio times the available width, the panes fill the container, and both are non-negative when the ratio is in [0,1] and the available width is not negative |
| Layout.InitialLaidOut | src/main.js:392-399 | the page's first state (ratio 0.5, no drag) satisfies the layout invariant, assuming the stylesheet's starting widths are equal halves that fill a container holding two minimum panes (the page itself never sets them) |
| Layout.StepKeepsLaidOut | src/main.js:401-465 | any single handler, at a fixed container size, keeps the panes filling the container, both at least 100, and the stored ratio in the range that gives both at least 100 |
| Layout.ResizeKeepsLaidOut | src/main.js:454-465 | a resize at the container's own size keeps the panes filling it, both at least 100 |
| Layout.MoveKeepsLaidOut | src/main.js:427-442 | a pointer move in a roomy container keeps the panes filling it, both at least 100, with a stored ratio that gives both at least 100 again |
| Layout.RunKeepsLaidOut | src/main.js:392-466 | the same invariant holds after any sequence of events while the container keeps its size |
| Layout.RunKeepsRatioProper | src/main.js:438-441 | the stored ratio stays strictly between 0 and 1 over any event sequence whose pointer moves all happen in containers with room for two minimum panes |
| Layout.RatioOnlyDragged | src/main.js:393-466 | an event sequence with no pointer move leaves the stored ratio unchanged, double clicks and resizes included |
| Layout.DoubleClickForgottenByResize | src/main.js:417-465 | a resize after a double click gives the same panes as a resize without it |
| Layout.DragThenResizeKeepsProportion | src/main.js:427-465 | a drag to 30% of a 1000px container, then a window of 1400px, gives a left pane of 30% of the new available width |
| Layout.ShrinkingWindowUndercutsMinimum | src/main.js:454-465 | a pane dragged to the minimum in a wide window is narrower than 100px after the window shrinks |
| Layout.SplitPane.constructor | src/main.js:393-399 | the handlers start from ratio 0.5 with no drag in progress |
| Layout.SplitPane.OnMouseEnter | src/main.js:401-403 | the new state is MouseEnter of the old |
| Layout.SplitPane.OnMouseLeave | src/main.js:405-409 | the new state is MouseLeave of the old |
| Layout.SplitPane.OnMouseDown | src/main.js:411-415 | the new state is MouseDown of the old |
| Layout.SplitPane.OnDoubleClick | src/main.js:417-425 | the new state is DoubleClick of the old |
| Layout.SplitPane.OnMouseMove | src/main.js:427-442 | the new state is MouseMove of the old, at the pointer's offset from the container's left edge |
| Layout.SplitPane.OnMouseUp | src/main.js:444-452 | the new state is MouseUp of the old |
| Layout.SplitPane.OnResize | src/main.js:454-465 | the new state is Resize of the old |
| SessionStore.GetItem | src/main.js:357-360 | a slot reads back present exactly when it was written, with the value written |
| SessionStore.SetItem | src/main.js:366-371 | writing a slot makes it read back the value and leaves every other (namespace, key) slot as it was |
| SessionStore.LoadLastContent | src/main.js:356-362 | the content slot reads back present exactly when it was written, with the value written |
| SessionStore.LoadScrollBarSettings | src/main.js:374-380 | the scroll-setting slot reads back present exactly when it was written, with the value written |
| SessionStore.SaveLastContent | src/main.js:364-372 | the content slot reads back the text; the scroll-setting slot and every other slot are unchanged |
| SessionStore.SaveScrollBarSettings | src/main.js:382-390 | the scroll-setting slot reads back the flag; the content slot and every other slot are unchanged |
| SessionStore.StartupContent | src/main.js:469-475 | an absent or empty saved content gives the template; a non-empty saved text gives that text; any other result is the saved text |
| SessionStore.StartupScrollSync | src/main.js:480 | an unset setting means disabled; a saved flag comes back as saved |
| SessionStore.ReloadRestoresContent | src/main.js:469-475 | after saving a text, a reload shows that text, or the template when the text is empty |
| SessionStore.SlotsIndependent | src/main.js:364-390 | saving the content never changes the setting a reload installs, and saving the setting never changes the content a reload installs |
| SessionStore.ReloadRestoresScrollSync | src/main.js:480-481 | a saved setting is installed again on reload |
| ScrollSync.TargetY | src/main.js:130-140 | the target is finite iff the editor's scroll range is non-zero, and then it is the same fraction of the preview's range as the scroll offset is of the editor's |
| ScrollSync.ScrollTo | src/main.js:141 | the preview lands within [0, its range]; a non-finite or negative target lands at 0; a target beyond the range lands at the range's end; a target within range is taken as is |
| ScrollSync.TargetWithinPreviewRange | src/main.js:134-140 | with the editor scrolled within a positive range, the target is finite and within [0, preview range] |
| ScrollSync.DegenerateEditorScrollsPreviewToTop | src/main.js:134-141 | with a zero editor range the target is not finite (NaN at offset 0) and the preview is scrolled to its top |
| ScrollSync.WorkedExample | src/main.js:134-140 | 100 of a 500px editor range maps to 240 of a 1200px preview range |
| SessionController.Session.Startup | src/main.js:469-481 | the content is the saved text or the template, the flag is clear, the toggle and checkbox follow the saved setting (off when unset), and output and store mirror the content |
| SessionController.Session.OnContentChange | src/main.js:115-123 | the flag becomes old flag or (content differs from the template), so it is never lowered; the content is rendered and saved; nothing else changes |
| SessionController.Session.UserEdit | src/main.js:115-123 | an edit sets the content and runs the change handler: flag, output and store as above |
| SessionController.Session.PresetValue | src/main.js:173-178 | the content is set, rendered and saved, and the flag ends clear even though the change handler ran |
| SessionController.Session.Reset | src/main.js:159-171 | it asks exactly when the flag is set or the content differs from the template; a declined prompt changes nothing; otherwise the template is back, the flag is clear and both columns are at the top |
| SessionController.Session.InitScrollBarSync | src/main.js:182-185 | the checkbox and the toggle take the given setting; nothing else changes |
| SessionController.Session.OnSyncCheckboxChange | src/main.js:187-191 | the toggle follows the checkbox and the setting is saved in its own slot, so a reload restores it and the content slot is unchanged |
| SessionController.Session.EnableScrollBarSync | src/main.js:194-196 | the toggle is on, and only it may change |
| SessionController.Session.DisableScrollBarSync | src/main.js:198-200 | the toggle is off, and only it may change |
| SessionController.Session.OnEditorScroll | src/main.js:125-142 | with the toggle off the preview does not move; with it on the preview goes to ScrollTo of TargetY |
| SessionController.PageLoad | src/main.js:469-481 | page load over the built-in template with the given renderer: the content is the saved text or the template, the flag is clear, the toggle and the checkbox follow the saved setting, only the content slot is written, and the output is the renderer applied to the content |
| PdfExport.TrimStart | src/main.js:259 | removes exactly the leading white space: the result is a suffix of the input that does not start with white space |
| PdfExport.TrimEnd | src/main.js:259 | removes exactly the trailing white space: the result is a prefix of the input that does not end with white space |
| PdfExport.Trim | src/main.js:259 | the trimmed markup is empty iff it is all white space; otherwise it starts and ends with a visible character |
| PdfExport.DecimalString | src/main.js:265-270 | a number's decimal digits with no leading zero; one to four digits exactly for numbers below 10, 100, 1000 and 10000 |
| PdfExport.DecimalRoundTrip | src/main.js:265-270 | the digits read back to the number |
| PdfExport.PadStart | src/main.js:265 | the result has the target length (or the input's, if longer), ends with the input and is filled in front with the fill character |
| PdfExport.Pad | src/main.js:265 | a number's digits, exactly two below 100, unpadded from 100 |
| PdfExport.PadRoundTrip | src/main.js:265 | a padded number reads back to the number |
| PdfExport.FormattedDate | src/main.js:266-270 | for a valid time the timestamp is exactly eleven characters longer than the year's digits; which characters they are is stated by TimestampRoundTrip |
| PdfExport.TimestampRoundTrip | src/main.js:264-270 | for four-digit years the timestamp is fifteen characters with '-' at position 8 and digits in every field (the two-digit fields zero-filled), and reading its fields back gives year, month+1, day, hours, minutes and seconds |
| PdfExport.DefaultSettings | src/main.js:272-279 | the defaults are valid (margin a number not below 0, a known orientation) and the file name is the one the pre-filled prefix gives |
| PdfExport.Merge | src/main.js:336-343 | the file name always takes the prefix; orientation and margin take the choice exactly when it is acceptable and keep the earlier value otherwise; validity is preserved; no other field changes |
| PdfExport.PrefilledDialogKeepsDefaults | src/main.js:292-343 | confirming the dialog with its pre-filled values leaves the defaults as they were |
| PdfExport.RejectedChoicesKeepDefaults | src/main.js:336-343 | a NaN or negative margin and an unknown orientation leave the default margin and orientation; only the file name changes |
| PdfExport.PdfOptions.Defaults | src/main.js:272-279 | the record built in place equals the defaults |
| PdfExport.PdfOptions.ApplyChoices | src/main.js:336-343 | the record after the in-place updates is Merge of the record before |
| PdfExport.DownloadPdf | src/main.js:254-351 | blank output is refused iff it is all white space; a cancelled dialog does nothing; otherwise the generator gets the merged defaults, which are valid |

## Left out

- The editor widget's creation, options and worker stub are not modelled. The widget is reduced to its value, and setting that value notifies the content-change handler every time.
- Markdown conversion and sanitising are not modelled. They are an injected function `render`; the model records only that the output shows `render(content)`.
- Storage expiry dates and the storage library's encoding are not modelled. The store is a map from (namespace, key) to a text or a flag.
- The clipboard copy button and its one-second label revert are not modelled. They are asynchronous browser calls with no logic beyond the call.
- The Promise plumbing, the dialog's markup and styles, the debug logging and the call into the PDF generator are not modelled. The dialog is reduced to its answer and the generator to the options it receives.
- The theme toggles are not modelled. They only swap labels and stylesheet links.
- `parseFloat` on the margin field is not modelled. The dialog's answer carries the number it parses to, NaN included.
- Floating point rounding is not modelled. Widths, ratios and scroll offsets are reals, and JavaScript numbers are reals plus the infinities and NaN; signed zero is not distinguished.
- The check that the output element exists is not modelled. The element is always present on the page, so only the blank-markup check is modelled.
- Revealing the first line and focusing the editor in `presetValue` are not modelled. They change only the widget's view.
- The build configuration (vite.config.js) is not part of this model.
- Pane widths are the numbers the handlers write, not the widths the browser lays out. In a container narrower than 100px plus the divider, a drag writes a negative right width, and a later resize can too. The browser discards a negative width and the pane keeps its earlier width, while the model records the negative number; every layout invariant is stated for containers with room for two minimum panes.
- Event traces (`Layout.Run`) admit no pointer move in a container no wider than its divider, even when no drag is in progress and the page would ignore the move; the lemmas over traces therefore say nothing about such moves.
- Layout.MouseMove: requires a non-zero available width during a drag. The left width is at least 100 there, so the page would store a ratio of +Infinity; the model keeps the ratio a real.
- Layout.SplitPane.OnMouseMove: carries the same requirement as Layout.MouseMove.
- SessionController.Session.Startup: requires the saved content slot to hold text, which is the only thing the page writes there.
- SessionController.PageLoad: carries the same requirement as SessionController.Session.Startup.
- PdfExport.TimestampRoundTrip: stated for four-digit years only. Other years change the timestamp's length, and its fields no longer sit at fixed places.
