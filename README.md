# Study hub components: a verified Dafny model

This project models the logic of four pages of a student study hub. Each page's
state and event handlers are modelled as Dafny classes, and the list and string
logic they are built from as pure functions. Browser APIs stay outside.

- **Whiteboard** (`whiteboard.dfy`). The drawing engine has a canvas, a history
  of full-canvas snapshots for undo, a drawing flag with an anchor point, the
  pen's current path and four tools: pen, rectangle, circle and scale.
  - The canvas is a value `Frame(width, height, marks)`: the drawing calls
    received since the canvas was last filled white. It stands for the canvas's
    pixels.
  - Rendering appends a mark. Filling the canvas white empties the list.
  - `putImageData` of a snapshot is `PutImage`. A snapshot of the canvas's size
    replaces the canvas; a different size is painted over it at the origin.
- **Todo list** (`todo.dfy`). Handlers move items between the active and
  completed lists with `find`, `filter` and append. Pure transition functions
  are proved to keep every active item uncompleted and every completed item
  completed.
- **Daily diary** (`diary.dfy`). Covers the upsert of a day's entry by date
  prefix, the effect that loads the selected day into the editor, and the list
  preview.
- **Study timer** (`timer.dfy`). Covers `formatTime` and the stopwatch state
  machine with its saved records.
- Shared helpers:
  - `seqs.dfy`: `filter` and the first-match search.
  - `text.dfy`: JavaScript's `trim`, `toString` for non-negative integers, and
    `padStart`.
  - `wrappers.dfy`: `Option`.

Three behaviours of the code worth stating explicitly:

- A window resize fills the canvas white and *appends* a blank snapshot. It
  does not reset the history.
- A pointer-down during a gesture is not ignored: it moves the anchor.
- A move uses the tool selected at that moment.

Time, ids, the storage contents and the day key enter as parameters. Each handler
is one atomic step on the component's current state.

## Model

| member | source | states |
|---|---|---|
| Seqs.Filter | todo.tsx:91 | the result holds exactly the kept elements of the input, never more of them |
| Seqs.FilterConcat | todo.tsx:108 | filtering a concatenation filters each part in place, so survivors keep their order |
| Seqs.FilterKeepsAll | todo.tsx:120 | filtering a list whose elements are all kept returns it unchanged |
| Seqs.FilterSnoc | todo.tsx:108 | filtering a list extended by one element extends the filtered list by that element exactly when it is kept |
| Seqs.FilterDropsOne | todo.tsx:91 | when a single element fails the test, filtering removes exactly that element |
| Seqs.FindFirst | todo.tsx:83 | the index found holds a match and no earlier index does; none is found iff nothing matches |
| Text.TrimStart | todo.tsx:64 | the result is a suffix of the input, everything cut off is white space, and it does not start with white space |
| Text.TrimEnd | todo.tsx:64 | the result is a prefix of the input, everything cut off is white space, and it does not end with white space |
| Text.Trim | todo.tsx:68 | the result is an infix of the input with no white space at either end, and everything cut off before and after it is white space |
| Text.TrimSplit | todo.tsx:68 | cutting white space off the start and then off the end leaves an infix with only white space around it |
| Text.TrimEmptyIffBlank | todo.tsx:64 | `trim` yields "" exactly when every character is white space |
| Text.Digits | pagetimer.tsx:113-115 | `toString` of a non-negative integer is a non-empty digit string without leading zero, at most two characters iff the number is below 100 |
| Text.ParseDigits | pagetimer.tsx:113-115 | reading the printed digits back gives the number |
| Text.PadStart | pagetimer.tsx:113-115 | `padStart` reaches the width, ends with the original string and fills the front with the fill character |
| Text.ParseLeadingZero | pagetimer.tsx:113-115 | a leading '0' does not change a digit string's value |
| Text.PadZeroParses | pagetimer.tsx:113-115 | a zero-padded field is all digits and reads back as the number |
| PageTimer.Clock | pagetimer.tsx:108-110 | hours·3600 + minutes·60 + seconds equals the count, with minutes and seconds below 60 |
| PageTimer.FieldBelow60 | pagetimer.tsx:114-115 | minutes and seconds always print as exactly two characters |
| PageTimer.FormatTime | pagetimer.tsx:107-117 | the "HH:MM:SS" display is at least 8 characters long, exactly 8 iff the count is below 360000 seconds (hours are never truncated), and reads back as the count it shows. The minute and second fields are two digits each, the first from '0' to '5', and an hour field longer than two digits has no leading zero, so the string is fixed by the count |
| PageTimer.ClockTextLength | pagetimer.tsx:112-116 | with minutes and seconds below 60 the joined fields are at least 8 characters, exactly 8 iff the total is below 360000 seconds |
| PageTimer.ParseJoinedFields | pagetimer.tsx:112-116 | three digit fields joined by ':' split back into the same fields |
| PageTimer.ClockTextRoundTrip | pagetimer.tsx:112-116 | reading the joined hour, minute and second fields back recovers the count of seconds they stand for |
| PageTimer.JoinedFieldsSplit | pagetimer.tsx:116 | in fields joined by colons, the hour field sits before the second colon from the end, then come the two-character minute and second fields |
| PageTimer.ClockTextFields | pagetimer.tsx:112-116 | with minutes and seconds below 60 the minute and second fields print as two digits starting with '0' to '5', and a hour field longer than two digits has no leading zero |
| PageTimer.ClockTextSpec | pagetimer.tsx:107-117 | for any triple with minutes and seconds below 60, the joined text has every property the display promises, stated for the count the triple stands for |
| PageTimer.FormatTimeInjective | pagetimer.tsx:107-117 | distinct counts give distinct displays |
| PageTimer.RecordLabel | pagetimer.tsx:85 | a typed label is kept; an empty one becomes "Study Session " followed by digits, without a leading zero, that read back as the number of records already saved plus one |
| PageTimer.DefaultLabelsDistinct | pagetimer.tsx:85 | default "Study Session n" labels made at different list lengths differ |
| PageTimer.WithoutRecord | pagetimer.tsx:99 | no record with the id is left, every kept record was in the list, every record with another id is kept, and the list never grows |
| PageTimer.WithoutRecordSpec | pagetimer.tsx:99 | deleting keeps exactly the records with another id, and an absent id changes nothing |
| PageTimer.Timer.constructor | pagetimer.tsx:18-24 | the timer mounts stopped at zero with an empty label and the stored records |
| PageTimer.Timer.Toggle | pagetimer.tsx:61-63 | the running flag flips and nothing else changes |
| PageTimer.Timer.Tick | pagetimer.tsx:43-47 | a tick adds exactly one second while running and does nothing while stopped |
| PageTimer.Timer.SetLabel | pagetimer.tsx:152 | typing sets the label (the input is disabled while running) |
| PageTimer.Timer.Reset | pagetimer.tsx:65-69 | stopped, zero seconds, empty label, records unchanged |
| PageTimer.Timer.SaveRecord | pagetimer.tsx:71-96 | a zero count changes nothing. Otherwise exactly one record is put in front: its duration is the count, its label is the typed label or "Study Session " followed by the old count + 1 printed in decimal without leading zero. Older records keep their order and the timer is reset |
| PageTimer.Timer.DeleteRecord | pagetimer.tsx:98-105 | records become the old ones without that id; nothing else changes |
| Todo.Find | todo.tsx:83 | the index of an item with the id with no earlier one, or nothing exactly when no item has the id |
| Todo.Without | todo.tsx:91 | no item with the id is left, every kept item was in the list, every item with another id is kept, and the list never grows |
| Todo.WithoutSpec | todo.tsx:91 | after removing an id no item has it; every other item stays; nothing new appears; a list without the id is unchanged |
| Todo.WithoutUnique | todo.tsx:91 | when one item carries the id, removing it removes exactly that item and keeps the rest in order |
| Todo.WithoutKeepsStatus | todo.tsx:108 | filtering keeps a list all-active or all-completed |
| Todo.Toggled | todo.tsx:82-91 | an absent id changes nothing. Otherwise the id leaves the active list, and the active list becomes exactly its items with other ids, in order (the filter). The completed list gains exactly one item at its end: the first match, marked completed. The status invariant is kept |
| Todo.Restored | todo.tsx:99-108 | the mirror of toggling: an absent id changes nothing; otherwise the first match returns to the end of the active list uncompleted, and the completed list becomes exactly its items with other ids, in order (the filter) |
| Todo.Deleted | todo.tsx:116-121 | the list the flag selects becomes exactly its items with other ids, in order (the filter), so it loses the id; the other list is unchanged; the invariant is kept |
| Todo.ToggleThenRestore | todo.tsx:82-108 | completing a task and restoring it puts it back unchanged at the end of the active list and leaves the completed list as it was |
| Todo.TodoList.constructor | todo.tsx:28-30 | the page mounts with the stored lists and an empty input |
| Todo.TodoList.SetInput | todo.tsx:149 | typing sets the input only |
| Todo.TodoList.AddTodo | todo.tsx:61-74 | a blank input changes nothing. Otherwise one active item with the trimmed text is appended to the active list, the completed list is unchanged and the input is emptied |
| Todo.TodoList.ToggleTodo | todo.tsx:82-97 | the lists become `Toggled` of the old lists (the id leaves the active list, every other active item stays in order, the first match is appended completed) and the input is unchanged |
| Todo.TodoList.RestoreTodo | todo.tsx:99-114 | the lists become `Restored` of the old lists (the id leaves the completed list, every other completed item stays in order, the first match is appended active) and the input is unchanged |
| Todo.TodoList.DeleteTodo | todo.tsx:116-128 | the lists become `Deleted` of the old lists (the selected list keeps exactly its items with other ids, in order) and the input is unchanged |
| Todo.TodoList.ClearCompletedHistory | todo.tsx:130-137 | the completed list is emptied and the active list is unchanged |
| Diary.FindDay | dailydiary.js:67 | the index of an entry whose date starts with the day's key with no such entry before it, or nothing exactly when the day has no entry |
| Diary.SaveIndex | dailydiary.js:67 | a save writes at an entry of the day with no entry of the day before it (the first), or past the end iff the day has none |
| Diary.Upsert | dailydiary.js:75-82 | with an entry for the day, only its first entry is overwritten and the length is kept. Otherwise the new entry is appended after the old entries |
| Diary.UpsertLookup | dailydiary.js:39-82 | the lookup after a save finds the entry just written iff its date string starts with the day key |
| Diary.RepeatSaveAppends | dailydiary.js:67-82 | when the saved date misses the day key, two saves for a day with no entry append two entries |
| Diary.UtcDateDuplicates | dailydiary.js:28-70 | a UTC date of the day before the local key yields a duplicate and an entry the lookup cannot find |
| Diary.LocalEntry | dailydiary.js:70 | an entry stamped with the local day key is on that day |
| Diary.LocalSaveRoundTrip | dailydiary.js:39-82 | with locally stamped entries, the saved entry is what the lookup finds, and a repeat save keeps the length |
| Diary.Preview | dailydiary.js:194-195 | the preview is the content up to 20 characters, else its first 20 characters followed by "..." |
| Diary.ShownMood | dailydiary.js:190 | the shown mood is the entry's mood when there is one and the memo emoji when the mood is empty |
| Diary.DiaryPage.constructor | dailydiary.js:21-36 | the page mounts with the stored entries and an empty editor |
| Diary.DiaryPage.SetContent | dailydiary.js:228 | typing sets the content only |
| Diary.DiaryPage.SetMood | dailydiary.js:165 | picking a mood sets the mood only |
| Diary.DiaryPage.LoadDay | dailydiary.js:39-50 | when the day has an entry, the first one's content and mood are loaded and `hasEntry` is true. Otherwise the editor is emptied and `hasEntry` is false. The entries are unchanged |
| Diary.DiaryPage.SaveEntry | dailydiary.js:57-91 | blank content changes nothing. Otherwise the entries become the upsert of the new entry and `hasEntry` is true. The editor is unchanged |
| Whiteboard.PutImage | whiteboard.tsx:150 | painting a snapshot back keeps the canvas size. A snapshot of the canvas's size replaces the canvas. One at least as large leaves nothing of the old canvas. One smaller in width or height is painted over the old canvas, which stays underneath |
| Whiteboard.Ticks | whiteboard.tsx:175-185 | the scale draws exactly 11 dots of radius 2, the first on the anchor and the last on the pointer, consecutive dots one tenth of the segment apart, the i-th at i/10 of the segment's length from the anchor |
| Whiteboard.TickDistance | whiteboard.tsx:173-180 | the i-th dot lies at distance i·length/10 from the anchor (stated on squares) |
| Whiteboard.TickStep | whiteboard.tsx:176-180 | consecutive dots are one tenth of the segment apart in each coordinate |
| Whiteboard.TicksEvenlySpaced | whiteboard.tsx:176-180 | the dot centres start at the anchor, end at the pointer, are one tenth of the segment apart, and the i-th lies at i/10 of the length from the anchor |
| Whiteboard.ShapePreview | whiteboard.tsx:156-186 | keeps the base's marks and the canvas size and adds exactly: a rectangle from the anchor spanning to the pointer; a circle centred on the anchor through the pointer; or the anchor-to-pointer line followed by the 11 scale dots |
| Whiteboard.ShapeMove | whiteboard.tsx:146-186 | the canvas keeps its size; over a snapshot of its size the preview is drawn on the snapshot; over a larger one, on a canvas showing only the snapshot; over a smaller one, on the old canvas with the snapshot painted over it |
| Whiteboard.ShapeMovesShowLastOnly | whiteboard.tsx:146-151 | when the last snapshot covers the canvas, any run of shape moves leaves only the final move's preview over the snapshot |
| Whiteboard.ShapeMovesAccumulateOnSmallSnapshot | whiteboard.tsx:148-151 | when the last snapshot is narrower than the canvas, the previous preview stays under the next one |
| Whiteboard.Board.constructor | whiteboard.tsx:39-71 | on mount the canvas is sized and blank, the history holds that blank canvas, and nothing is being drawn |
| Whiteboard.Board.SaveToHistory | whiteboard.tsx:87-93 | exactly one snapshot equal to the canvas is appended, earlier ones unchanged |
| Whiteboard.Board.Resize | whiteboard.tsx:44-68 | the canvas becomes blank at the new size and one blank snapshot is appended. History and gesture are otherwise kept, and the path is dropped |
| Whiteboard.Board.SetTool | whiteboard.tsx:301-325 | the tool is set |
| Whiteboard.Board.StartDrawing | whiteboard.tsx:95-123 | drawing starts with the anchor at the pointer, even during a gesture. The pen's path restarts there. Canvas and history are unchanged |
| Whiteboard.Board.DrawTicks | whiteboard.tsx:178-185 | the loop appends exactly the 11 scale dots to the canvas |
| Whiteboard.Board.Draw | whiteboard.tsx:125-188 | outside a gesture nothing changes, and the history never changes. The pen extends its path and strokes it onto the canvas. A shape tool restores the last snapshot and then draws its preview, so with a same-size snapshot the canvas depends only on snapshot, anchor and pointer |
| Whiteboard.Board.EndDrawing | whiteboard.tsx:190-200 | during a gesture it stops drawing and appends exactly one snapshot equal to the canvas. Outside a gesture nothing changes |
| Whiteboard.Board.Undo | whiteboard.tsx:202-215 | with at most one snapshot nothing changes. Otherwise the last snapshot is dropped, the rest is kept, and the new last one is painted back (so it becomes the canvas when it has the canvas's size) |
| Whiteboard.Board.ClearCanvas | whiteboard.tsx:255-263 | the canvas becomes blank and exactly one snapshot of it is appended |

## Findings

| source | as written | input that shows it | evidently intended | confidence | as-written member | corrected member |
|---|---|---|---|---|---|---|
| dailydiary.js:28, 70 | the entry's date is `selectedDate.toISOString()` (UTC), but entries are found by the local `yyyy-MM-dd` key | local midnight of 2024-03-15 east of Greenwich: date "2024-03-14T23:00:00.000Z" vs key "2024-03-15"; saving twice gives two entries, neither found for that day | an entry saved for a day is found again for that day and later saves overwrite it | high, not executed | Diary.UtcDateDuplicates | Diary.LocalSaveRoundTrip |

`Diary.DiaryPage.SaveEntry` models the handler as written: its caller passes the
date string. `Diary.LocalEntry` and `Diary.LocalSaveRoundTrip` give the corrected
stamping (local day key followed by the time of day) and prove its round trip.
A related consequence follows from the code but is not modelled: because
`entries` changed, the lookup effect (`LoadDay`) runs after the save. In the
failing case it then empties the editor and resets `hasEntry` to false.

## Left out

- Pixels. Antialiasing, line caps and joins, and rasterising `rect`, `arc` and
  `stroke` are outside the model. A frame is the list of drawing calls standing
  for its pixels, so two different lists may show the same pixels.
- Stroke style. The model has no colour, brush size, display scale or fill
  style (whiteboard.tsx:56-59, 80-85). The code shows two effects here that the
  model therefore does not capture:
  - The scale's dots are filled with the context's fill style, which is only
    ever set to white.
  - After a resize, the stroke style and width revert to the values captured
    when the component mounted.
- Floating point and trigonometry. Points are reals. A scale dot is stated as
  anchor + (i/10)·(pointer − anchor), which is what cos/sin of `atan2` times the
  length give over the reals. Circle radii are kept squared, so there is no
  square root.
- The pointer-to-canvas offset from `getBoundingClientRect` and the
  touch-versus-mouse event plumbing. Points arrive in canvas coordinates.
- The 2D context's path outside the pen:
  - `Whiteboard.Board.Draw` treats the rectangle, circle and scale subpaths as
    leaving no current path.
  - A pen move after a shape move in the same gesture (possible only by
    switching tool mid-gesture) starts a fresh path; the real context would
    continue from the last subpath.
  - `closePath` at the end of a pen gesture draws nothing and is not modelled.
- A missing canvas or context (`if (!context) return`). The model starts from
  the mounted component, where both exist.
- PNG export and the download link (`handleSave`), all toast notifications, and
  `console.error`.
- Storage and serialisation: reading and writing `localStorage`, and
  `JSON.parse`/`JSON.stringify`. Stored lists are constructor parameters.
  `Todo.TodoList.constructor` requires the stored lists to satisfy the status
  invariant, which the code does not check on load.
- Clocks and calendars. These are parameters, not modelled:
  - `Date.now()` ids and timestamps, `toISOString`.
  - The `date-fns` day key and `navigateDay` arithmetic.
  - The `Intl` record dates.
- `setInterval`/`clearInterval`. A tick is an abstract step that counts only
  while running.
- The in-place `entries.sort` during the diary's render (dailydiary.js:182). It
  reorders the state array by date, which can change which entry of a day is
  found first.
- React's batched, asynchronous `setState` and stale closures. Each handler is
  one atomic step.
- String lengths. `substring(0, 20)` and `length` count UTF-16 code units; the
  model counts characters.
- The sticky-note component: it only forwards to functions outside this code.
