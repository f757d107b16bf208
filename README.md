# Phone number tracker — Dafny model

The tracker is a Tkinter desktop tool. The user enters a phone number in
international format and presses Search. The number is validated by the
`phonenumbers` library. A valid number is added once to a session history
list. An information panel then shows the number's country, carrier (SIM)
and time zones. It also shows a geocoded longitude, latitude, city and state,
and the current time at the geocoded place. A "Show on Map" button is enabled
only when the geocoder found the place. The history can be cleared or
exported as CSV rows. The eight panel lines can be copied to the clipboard.

This project models that core:

- `Text`: Python's `str.strip()`, `str.split(',')` and `sep.join(...)`,
  written out with their round-trip properties.
- `Address`: the city/state heuristic. The geocoder's address is split on
  commas. The city is the fifth piece from the end and the state the third,
  each stripped, and each guarded by a piece count.
- `HistoryList`: the history list widget as a class over a `seq<string>`.
  Its invariant is that no entry repeats. It has add-if-absent, clear and
  export.
- `Display`: the panel as a class with eight text fields and the map-button
  flag. `ShowInformation` updates them step by step, in the tracker's order,
  and is proved to end in the screen given by the specification function
  `Render`. The clipboard text is the eight lines joined by newlines.
- `Tracker`: the Search action. It validates the number, records it in the
  history, then fills the panel.

Foreign lookups are parameters. The phone-number parse is a function
`string -> ParseOutcome`: it either fails, or gives the validity flag with
the description, carrier and zone list. The geocoder, the
coordinate-to-timezone finder and the clock are functions in `Services`.
The geocoder is queried with the region description, not with the number,
as the source does. A time-zone answer counts only when it is a non-empty
string, which is Python's truthiness rule for `if result:`.

The model keeps the code's own shapes:

- The panel is one mutable object whose eight lines and map flag are
  updated field by field on every lookup.
- Export takes no path, because the source always writes
  `phone_number_history.csv` (phone_number_tracker.py:101). The file itself
  is not modelled.
- The zone list is shown joined by `", "`.

## Model

| member | source | states |
|---|---|---|
| Text.Strip | phone_number_tracker.py:60-61 | the result has no whitespace at either end, and is a slice of the input with only whitespace outside it (Python's `str.isspace` set) |
| Text.LeftStrip | phone_number_tracker.py:60-61 | the leading-whitespace half of `strip()`: the result is a suffix of the input, everything dropped is whitespace, and the result does not start with whitespace |
| Text.RightStrip | phone_number_tracker.py:60-61 | the trailing-whitespace half of `strip()`: the result is a prefix of the input, everything dropped is whitespace, and the result does not end with whitespace |
| Text.StripIdempotent | phone_number_tracker.py:60-61 | stripping an already stripped field changes nothing |
| Text.StripAbsent | phone_number_tracker.py:60-61 | stripping never introduces a character, so a comma-free piece stays comma-free |
| Text.Split | phone_number_tracker.py:59 | `split(',')` yields exactly one more piece than there are commas, empty pieces kept, and no piece contains a comma |
| Text.Join | phone_number_tracker.py:49 | Python's `sep.join`, also used for the clipboard at lines 111-115; it has no `ensures` of its own: its contract is carried by Text.JoinSplit and Text.SplitJoin, which make it the inverse of `Split` |
| Text.JoinSplit | phone_number_tracker.py:59 | joining the pieces back with the separator restores the address exactly |
| Text.SplitJoin | phone_number_tracker.py:59 | splitting a join of separator-free pieces gives the pieces back |
| Address.City | phone_number_tracker.py:59-60 | `address_parts[-5].strip()` behind the `len > 4` guard, else "Unknown"; it has no `ensures` of its own: its contract is carried by Address.CityOfFields, Address.ExtractedFields and Address.FivePieceAddress |
| Address.State | phone_number_tracker.py:59-61 | `address_parts[-3].strip()` behind the `len > 2` guard, else "Unknown"; it has no `ensures` of its own: its contract is carried by Address.StateOfFields, Address.ExtractedFields and Address.FivePieceAddress |
| Address.CityOfFields | phone_number_tracker.py:59-60 | for an address of comma-free fields, the city is the stripped fifth field from the end when there are at least five fields, else "Unknown"; the guard keeps index -5 in range |
| Address.StateOfFields | phone_number_tracker.py:59-61 | for an address of comma-free fields, the state is the stripped third field from the end when there are at least three fields, else "Unknown"; the guard keeps index -3 in range |
| Address.StateWithoutCity | phone_number_tracker.py:59-61 | three or four fields give a real state but an "Unknown" city |
| Address.ExtractedFields | phone_number_tracker.py:59-61 | fewer than four commas make the city "Unknown" and fewer than two make the state "Unknown"; otherwise each extracted field has no whitespace at either end and contains no comma |
| Address.FivePieceAddress | phone_number_tracker.py:59-61 | for five comma-free pieces a, b, c, d, e joined by commas, the city is the stripped a and the state the stripped c |
| HistoryList.AddIfAbsent | phone_number_tracker.py:31-32 | the number is appended only when absent; the old list stays a prefix; no duplicates are introduced |
| HistoryList.RecordedIsDeduplicated | phone_number_tracker.py:31-32 | after any series of tracked numbers, the history holds each of them exactly once and nothing else |
| HistoryList.RecordedPrefix | phone_number_tracker.py:31-32 | later numbers never move or remove earlier entries, so entries stay in first-entry order |
| HistoryList.RecordedRepeat | phone_number_tracker.py:31-32 | tracking the same number twice in a row gives the same history as tracking it once |
| HistoryList.History.constructor | phone_number_tracker.py:156 | the history list starts empty |
| HistoryList.History.Contains | phone_number_tracker.py:31 | the scan reports true exactly when the number is listed |
| HistoryList.History.Add | phone_number_tracker.py:31-32 | the new list is the old one with the number appended when absent, and the no-duplicates invariant is kept |
| HistoryList.History.Clear | phone_number_tracker.py:95-96 | the history is empty afterwards |
| HistoryList.History.Export | phone_number_tracker.py:99-104 | exactly one row per entry, in list order, each row holding just that entry |
| Display.Render | phone_number_tracker.py:37-82 | country, SIM and timezone lines always show the number's own data; the map is enabled exactly when the description geocodes; with no match, longitude, latitude, city, state and phone time read "Unknown"; with a match they come from the match, and phone time is the clock's reading in the place's zone, or "Unknown" when no non-empty zone is found |
| Display.HasZone | phone_number_tracker.py:66 | Python's truthiness of the time-zone answer: true exactly for a present, non-empty zone name; stated by its body, used in Display.Render |
| Display.PlaceFollowsDescription | phone_number_tracker.py:40-53 | two numbers with the same region description get the same place-derived lines, because the geocoder is queried with the description |
| Display.ClipboardLines | phone_number_tracker.py:110-115 | when no line contains a newline, the clipboard text splits on newlines into exactly the eight lines in the order country, SIM, timezone, phone time, longitude, latitude, city, state |
| Display.InfoPanel.constructor | phone_number_tracker.py:174-197 | all eight lines start empty and the map button starts disabled |
| Display.InfoPanel.ShowInformation | phone_number_tracker.py:37-82 | after the field-by-field updates the panel shows exactly `Render` of the lookups |
| Display.InfoPanel.CopyToClipboard | phone_number_tracker.py:110-116 | the copied text is the newline join of the panel's current eight lines |
| Tracker.IsValidNumber | phone_number_tracker.py:14-19 | a parse that raises is reported invalid; a successful parse is valid exactly when the library says so |
| Tracker.Track | phone_number_tracker.py:13-34 | an unparsable or invalid number gives the error outcome and leaves history and panel unchanged; a valid one is added to the history only if absent, and the panel then shows `Render` of its lookups |

## Left out

- Window, frames, labels, menu, buttons, event binding and the main loop: pure UI.
- The `phonenumbers` parse, validity, description, carrier and time-zone calls: library data, taken as the `parse` parameter of `Track`.
- The Nominatim geocoder, `TimezoneFinder`, `pytz`, `datetime.now` and `strftime`: network, foreign data and a wall clock. They are the `Services` functions, and the formatted time is opaque text.
- Coordinates are the text the panel prints for them; floating-point values and their formatting are not modelled.
- The Google Maps URL and `webbrowser.open` behind the map button: browser I/O. Only the button's enabled flag is modelled.
- CSV quoting, the file write, `pyperclip` and the message boxes: file, clipboard and dialog I/O. Only the exported rows, the joined clipboard text and the Search outcome are kept.
- `load_from_history`: it calls `entry.set`, which a `tk.Entry` does not have. The handler therefore raises before it re-displays anything, so it is not modelled as a working re-resolve.
- The catch-all `except` in `display_information`: which lines were already updated depends on which foreign call raised, and the lookups are modelled as total functions.
- Tracker.Track: its contract does not show the history entry surviving a failed lookup (phone_number_tracker.py:31-34, 84-85), because the lookups are total functions here; the body does add the entry before the lookups run.
