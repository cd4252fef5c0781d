# Health tracker record store, in Dafny

This project models the record store of a browser health log (`app.js`). A
form captures blood pressure, pulse, sleep, triggers, symptoms, medications
and notes. The store `HealthDataStore` keeps these entries most recently added first and
writes the whole log to browser storage after every change. It classifies
each entry into a green, yellow, orange or red zone from the `ZONES`
threshold table. It can also return the most recently added entries, the entries
since a cutoff in time order, or the whole log as a Markdown document. Three
small tables turn checkbox values into Russian display names.

Modules, one concept each:

- `Wrappers`: `Option`, used for JavaScript `null` and for "nothing stored".
- `Text`: string truthiness, `a || b`, and the decimal rendering of integers in template literals.
- `Entries`: the entry record and its parts.
- `Zones`: the `ZONES` table, the classifier `calculateZone`, and `getZoneEmoji` / `getZoneName`.
- `Names`: `getTriggerName`, `getSymptomName` and `getMedicationName`.
- `History`: the filter and the stable sort behind `getLastNDays`.
- `Markdown`: the document `exportToMarkdown` must produce, and loops that build it one `+=` at a time.
- `Store`: `loadData`, and the class `HealthDataStore`.

The class has two fields: `data`, the log in memory, and `storage`, the last
snapshot written to browser storage. Methods that change the log are
methods with `modifies this`. The entry queries are functions that read the object.
The Markdown export is a method whose loops follow the source's `+=` steps.
The clock reading used as the new entry's `id` is a parameter. So are the
`getLastNDays` cutoff and the locale date formatter used by the export.

## Model

| member | source | states |
|---|---|---|
| Zones.CalculateZone | app.js:80-92 | red exactly when systolic ≥ 171 or diastolic ≥ 106; orange exactly when not red and systolic ≥ 151 or diastolic ≥ 101; yellow exactly when neither and systolic ≥ 141 or diastolic ≥ 91; green exactly when systolic ≤ 140 and diastolic ≤ 90 |
| Zones.CalculateZoneIsMostSevereReached | app.js:4-29 | the zone returned is one the readings reach by the `ZONES` lower bounds, and no tier reached is more severe |
| Zones.ZoneDependsOnlyOnPressure | app.js:81 | two entries with the same systolic and diastolic readings get the same zone, whatever their pulse or anything else |
| Zones.ZoneMonotone | app.js:83-91 | raising systolic or diastolic never lowers the zone's severity |
| Zones.ZoneEmoji | app.js:163-171 | the empty string exactly for a key outside green/yellow/orange/red, and a single emoji for each key |
| Zones.ZoneName | app.js:173-181 | the empty string exactly for a key outside green/yellow/orange/red |
| Zones.ZoneDisplayDistinguishesTiers | app.js:163-181 | every tier the classifier returns has an emoji and a name, and different tiers get different emojis and names |
| Names.TriggerName | app.js:390-400 | the input comes back unchanged exactly when it is not one of the six trigger keys; a known key gets its table label |
| Names.SymptomName | app.js:402-410 | the input comes back unchanged exactly when it is not one of the four symptom keys; a known key gets its table label |
| Names.MedicationName | app.js:412-418 | the input comes back unchanged exactly when it is not one of the two medication keys; a known key gets its table label |
| Store.LoadData | app.js:38-50 | a stored snapshot is used as it is; with nothing stored the log is empty and the profile ranges are 128-140, 78-90 and 65-85 |
| Store.Stamp | app.js:58-59 | the stored entry has the clock reading as `id` and the key of its calculated zone as `zone`; every other field is the caller's |
| Store.HealthDataStore.constructor | app.js:33-36 | the in-memory log is what `loadData` returns for the current storage |
| Store.HealthDataStore.SaveData | app.js:53-55 | the snapshot in storage becomes the in-memory log, and the log is not changed |
| Store.HealthDataStore.AddEntry | app.js:57-62 | the stamped entry is prepended: the length grows by one, entry 0 has the given id and its zone, the old entries follow in order, the profile is unchanged, storage equals the new log, and `getEntries(1)` returns just the new entry |
| Store.SliceEnd | app.js:66 | the `slice(0, end)` end index: an index of the log is below it exactly when `slice` keeps that index, that is when it is below `end`, or, for a negative `end`, before the last `-end` entries |
| Store.HealthDataStore.GetEntries | app.js:64-69 | the result is always a prefix of the log; a null or 0 limit gives the whole log; a positive limit gives min(limit, length) entries; a negative limit drops that many from the end |
| Store.HealthDataStore.GetLastNDays | app.js:71-78 | as a multiset, exactly the stored entries stamped at or after the cutoff; sorted ascending by timestamp; entries with equal timestamps keep their stored order |
| History.FilterSince | app.js:76 | keeps each entry stamped at or after the cutoff as often as it occurs, and no other entry |
| History.FilterSinceAppend | app.js:76 | filtering a log is filtering its first part followed by filtering the rest, so the kept entries stay in stored order |
| History.FilterSinceSingle | app.js:76 | a single entry is kept exactly when it is stamped at or after the cutoff |
| History.FilterSinceWithDatetime | app.js:76 | among kept entries with the same timestamp, the filter keeps stored order; entries stamped before the cutoff have none kept |
| History.SortByDatetime | app.js:77 | the sort is a permutation of its input, sorted ascending by timestamp |
| History.SortWithDatetime | app.js:77 | the sort is stable: entries with equal timestamps keep their input order |
| History.StableSortUnique | app.js:77 | two sorted permutations of the same entries that keep ties in the same order are equal, so any stable sort gives the same result |
| History.RecentDetermined | app.js:71-78 | any sequence that meets the `getLastNDays` contract is the filter-then-sort result |
| Markdown.SleepBlock | app.js:108-113 | empty exactly when the entry has no sleep record; otherwise it opens with the sleep heading |
| Markdown.TriggersBlock | app.js:117-127 | empty exactly when there are no triggers; otherwise it opens with the triggers heading |
| Markdown.SymptomsBlock | app.js:129-139 | empty exactly when there are no symptoms; otherwise it opens with the symptoms heading |
| Markdown.MedicationsBlock | app.js:141-151 | empty exactly when there are no medications; otherwise it opens with the medications heading |
| Markdown.NotesBlock | app.js:153-155 | empty exactly when the notes are empty; otherwise it opens with the notes label |
| Markdown.SectionShape | app.js:102-157 | a section is the date, pressure, pulse and zone lines, then sleep, wellness, triggers, symptoms, medications and notes, then the rule, in that order |
| Markdown.SectionEndsWithRule | app.js:157 | every section ends with `---` and a blank line |
| Markdown.BareSection | app.js:108-155 | an entry with no sleep record, no triggers, symptoms or medications, and no notes gives only the fixed lines and the rule |
| Markdown.Document | app.js:99 | every export starts with the fixed header line |
| Markdown.DocumentOfEmpty | app.js:99-160 | an empty log exports as the header alone |
| Markdown.DocumentOfPrepend | app.js:101-158 | the head of the log, which is the most recently added entry, is the first section after the header, and the rest follow in stored order |
| Markdown.LinesAppend | app.js:101 | the sections of two runs of entries, one after the other, are the two renderings concatenated |
| Markdown.AppendTriggerLines | app.js:119-125 | the loop appends one trigger line per trigger, in order |
| Markdown.AppendSymptomLines | app.js:131-137 | the loop appends one symptom line per symptom, in order |
| Markdown.AppendMedicationLines | app.js:143-149 | the loop appends one medication line per medication, in order |
| Markdown.AppendSleepBlock | app.js:108-113 | appends exactly the sleep block: nothing without a sleep record |
| Markdown.AppendTriggersBlock | app.js:117-127 | appends exactly the triggers block: nothing when there are no triggers |
| Markdown.AppendSymptomsBlock | app.js:129-139 | appends exactly the symptoms block: nothing when there are no symptoms |
| Markdown.AppendMedicationsBlock | app.js:141-151 | appends exactly the medications block: nothing when there are no medications |
| Markdown.AppendNotesBlock | app.js:153-155 | appends exactly the notes line: nothing when the notes are empty |
| Markdown.AppendSection | app.js:102-157 | the `+=` steps for one entry append exactly that entry's section |
| Markdown.BuildDocument | app.js:98-161 | the loop over the log produces exactly the document: the header, then one section per entry in stored order |
| Store.HealthDataStore.ExportToMarkdown | app.js:98-161 | the export of the current log is exactly that document |
| Text.IntToString | app.js:104 | a number in a template literal renders as at least one character, with a leading minus sign exactly when it is negative |
| Text.IntToStringRoundTrip | app.js:104-105 | the rendering of a number loses nothing: it reads back as the same integer |

## Left out

- Browser storage and JSON: `localStorage` and the storage key, `JSON.stringify` and `JSON.parse` (app.js:39-41, 54, 95) are not modelled. A snapshot is the log value itself, so a stored log is assumed to load back exactly as it was saved. `exportToJSON` is out for the same reason.
- Dates: `Date.now()`, `new Date(...)`, `setDate` and `toLocaleString('ru-RU')` (app.js:58, 72-73, 76-77, 102) are not modelled. Timestamps are integers. The clock reading and the cutoff are parameters, and so is the date formatter. The day arithmetic that turns `days` into a cutoff is not modelled.
- Store.HealthDataStore.GetLastNDays: takes the cutoff itself rather than a day count, because the day count is turned into a cutoff by the browser clock.
- Entries: each field has the type the entry form gives it (app.js:258-273). `NaN` from a failed `parseInt`, and fields missing from a hand-edited stored log, are not modelled. The form always supplies a sleep object; the model also allows a stored entry with none.
- Text.IntToString: JavaScript numbers are doubles. From 1e21 in magnitude, a template literal switches to exponent form (`1e+21`), and `parseInt` results beyond 2^53 lose precision. The model renders every integer in plain decimal, so it matches the source only for integers below 1e21 in magnitude that came in exactly.
- Store.HealthDataStore.AddEntry: in the source the caller's own entry object is stamped in place and then shared with the log. The model stores a stamped copy, so this aliasing is not captured.
- Store.HealthDataStore.AddEntry: every write to storage is assumed to succeed. The model assumes this object is the only writer. In the source, `localStorage.setItem` (app.js:54) can throw, for example when storage is full. The entry is then in memory (app.js:60) but not in storage, and the exception leaves `addEntry`. Every open tab builds its own store once (app.js:185) and writes its whole log, so an entry another tab saved after this tab loaded is overwritten. The model's "storage equals the new log" holds only without these two cases.
- Store.HealthDataStore.GetEntries: in the source, the whole-log case returns the live array, not a copy. The model returns a value, so aliasing is not captured.
- Name and zone lookups: in JavaScript, a key such as `constructor` also finds an inherited property on the lookup object. Keys are modelled as plain map lookups.
- UI and other files: the form, the records table, the charts and file downloads (app.js:186-627) are not part of this model, and neither is `ai-helper.js`. The trigger, symptom and medication collectors are input to `AddEntry`.
- The zone classifier follows the code. `ZONES` also carries pulse bounds (app.js:8, 14, 20, 26), but `calculateZone` reads only systolic and diastolic (app.js:81-91), and the upper bounds in `ZONES` are never used.
- The Markdown export writes a trigger's `details` but not a symptom's or medication's `details`, as the code does.
