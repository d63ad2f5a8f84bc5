# Rundown Studio entity types: conversion and defaults

This project models the runtime logic of the Rundown Studio shared type
library and proves properties of it in Dafny:

- the defaulting merger `useDefaults` with its `REQUIRED` sentinel;
- the two generic converters. `fromSnapshot` turns a Firestore document into
  an entity. `fromSerialized` turns a wire object with ISO date strings into
  an entity;
- the team converters, which also walk the `members` and `pending` maps;
- the salt generator;
- the rundown permission bit flags;
- the per-entity defaults and converter configurations for rundowns, cells,
  cues, events, mentions, runners and teams.

JavaScript values are the datatype `Values.Value`. A plain object is a
`map<string, Value>`, and reading a missing key gives `undefined`. A date is
its time value in milliseconds. A Firestore timestamp is `Timestamp(ms)`. A
thrown error is `Err(...)` of a `Result`. Four things the library takes from
its environment are parameters:

- "now" (`new Date()`, `Date.now()`) is `now`;
- the ISO parser inside `new Date(s)` is `parse: string -> Option<int>`, where
  `None` stands for a NaN time value;
- `Math.random()` is `random: nat -> real`, whose i-th value is the i-th draw;
- the for...in order of an object's keys is an explicit `order` sequence.

The imperative code is modelled by methods with loops. These are the two
date-field loops, the `useDefaults` loop, the team member loops and the salt
loop. Each method is proved equal to a specification function, and the
properties are proved about those functions. The per-entity files are single
delegating calls and literals. They are modelled as functions and lemmas over
those specification functions.

## Model

| member | source | states |
|---|---|---|
| UseDefaults.UseDefaults | src/utils/useDefaults.ts:9-23 | The loop over the keys of `defaults` in for...in order returns exactly `Defaulted`: the error for the first unmet required key, or the merged record |
| UseDefaults.FirstUnmet | src/utils/useDefaults.ts:14-16 | The key reported is in the order and is a required key left falsy; when none is reported, every required key is met |
| UseDefaults.FirstUnmetAt | src/utils/useDefaults.ts:14-16 | When every key before position i is met and the key at i is not, the error names the key at i |
| UseDefaults.MissingNamesFirst | src/utils/useDefaults.ts:14-16 | The error names a required key left falsy, and no earlier key in for...in order is unmet |
| UseDefaults.FailsIffRequiredUnmet | src/utils/useDefaults.ts:15-16 | The merge throws exactly when some `REQUIRED` key is falsy in `values` |
| UseDefaults.DefaultedValues | src/utils/useDefaults.ts:13-21 | On success the keys are those of values and defaults together; a met required key is copied; other default keys take the value when truthy and the default otherwise (`0`, `''`, `false` replaced); keys only in values pass through |
| UseDefaults.EmptyGetsDefaults | src/utils/useDefaults.ts:13-19 | With no `REQUIRED` entry, merging the empty bag gives the defaults back |
| UseDefaults.DefaultedIdempotent | src/utils/useDefaults.ts:15-20 | Merging a successful merge's output with the same defaults succeeds and changes nothing |
| UseDefaults.FilledOnStep | src/utils/useDefaults.ts:17-19 | Writing one more chosen key extends the merged part by that key |
| Converters.FromSnapshot | src/utils/converters.ts:24-54 | Returns exactly `SnapshotEntity`: "Snapshot data is undefined" without a payload, otherwise defaults, data and system fields overlaid and the date pass applied |
| Converters.SnapshotDatePass | src/utils/converters.ts:42-51 | The loop over the declared date fields throws a TypeError exactly when a field holds a map with an uncallable `toDate`, and otherwise rewrites every declared field with the fromSnapshot rule |
| Converters.FromSerialized | src/utils/converters.ts:60-80 | Returns exactly `SerializedEntity`: the shallow copy with every declared date field rewritten by the fromSerialized rule |
| Converters.SnapshotOutcome | src/utils/converters.ts:28-31 | The result is the "undefined data" error exactly when the payload is absent; with a payload it succeeds unless a declared date field holds an uncallable `toDate` |
| Converters.SnapshotSystemFields | src/utils/converters.ts:33-38 | `id` is the snapshot id whatever the data or defaults hold; `createdAt`/`updatedAt` are the metadata times, or now when absent |
| Converters.SnapshotPrecedence | src/utils/converters.ts:33-35 | A non-system, non-date key is present iff it is in the data or the defaults; the data's value beats the default |
| Converters.SnapshotDateField | src/utils/converters.ts:43-50 | A declared date field: a timestamp becomes the date of the same instant, null or absent becomes null, anything else is kept |
| Converters.SnapshotDateIdempotent | src/utils/converters.ts:45-49 | The fromSnapshot rewrite of one value is idempotent |
| Converters.SnapshotDatesIdempotent | src/utils/converters.ts:43-51 | After fromSnapshot no declared date field holds a `toDate` value, and a second date pass changes nothing |
| Converters.RewrittenIdempotent | src/utils/converters.ts:43-50 | Rewriting the same fields twice with an idempotent rule equals rewriting once |
| Converters.RewrittenStep | src/utils/converters.ts:43-50 | One more loop turn extends the rewritten prefix of the date-field list by one field, duplicates included |
| Converters.SerializedKeys | src/utils/converters.ts:64-77 | The result's keys are the input's plus the declared date fields, and every other key keeps its value |
| Converters.SerializedDateField | src/utils/converters.ts:68-76 | A declared date field: a string becomes the parsed date, or null when the parse gives NaN; null or absent becomes null; any other value is kept |
| Converters.SerializedDateIdempotent | src/utils/converters.ts:70-75 | The fromSerialized rewrite of one value is idempotent |
| Converters.SerializedIdempotent | src/utils/converters.ts:68-76 | fromSerialized applied to its own result with the same date fields changes nothing |
| Converters.SnapshotWithoutDefaultsThrows | src/utils/converters.ts:28-31 | Without defaults, fromSnapshot throws exactly when the payload is absent or a declared non-system date field of the payload holds an uncallable `toDate` |
| Converters.SnapshotWithoutDefaultsConverts | src/utils/converters.ts:33-51 | Without defaults, a successful fromSnapshot has the payload's keys plus system and date fields, the system fields from the metadata, each declared date rewritten and every other key copied |
| Converters.SerializedShape | src/utils/converters.ts:64-77 | fromSerialized adds exactly the declared date fields, rewrites each of them and copies every other key |
| Converters.ToWire | src/utils/converters.ts:70-72 | The ISO-string form of an entity has the same keys |
| Converters.WireRoundTrip | src/utils/converters.ts:68-76 | An entity whose date fields hold dates or null survives serialisation to ISO strings and fromSerialized, when the parser inverts the formatter |
| Team.TeamDefaults | src/types/Team.ts:62-67 | Empty name, empty `members` and `pending`, null `apiToken`, no required key |
| Team.MemberDefaults | src/types/Team.ts:69-72 | Role `team_member`, created now |
| Team.ConvertMembers | src/types/Team.ts:85-93 | The for...in loop over a member map returns exactly `MembersConverted`: every entry rewritten, or the TypeError one entry throws |
| Team.ConvertMembersOf | src/types/Team.ts:85-103 | Walking the map under one key returns exactly `WithMembers`; a field that is not a map is left alone |
| Team.TeamFromSnapshot | src/types/Team.ts:78-106 | Returns exactly `TeamSnapshotEntity`: fromSnapshot with no date fields, then `members`, then `pending` walked |
| Team.TeamFromSerialized | src/types/Team.ts:112-139 | Returns exactly `TeamSerializedEntity`: fromSerialized of `createdAt`/`updatedAt`, then both member maps walked |
| Team.MembersConvertedKeys | src/types/Team.ts:85-103 | A member walk fails exactly when some entry throws, and otherwise keeps the key set |
| Team.SnapshotMember | src/types/Team.ts:86-92 | A member whose `createdAt` is a timestamp gets the date of that instant and keeps its role and other fields; one without a `toDate` value is kept; a null member throws |
| Team.SerializedMember | src/types/Team.ts:119-125 | A string `createdAt` becomes `new Date(s)`: an invalid date, never null, when unparseable; other members are kept; a null member throws |
| Team.WithMembersEffect | src/types/Team.ts:85-103 | A member walk changes only the walked map, which keeps its keys with every entry converted |
| Team.TeamSnapshotShape | src/types/Team.ts:78-106 | `id` is the snapshot id and `createdAt`/`updatedAt` the metadata times (or now); every other top-level key except the member maps is exactly the stored data; both member maps keep their keys and have every entry converted |
| Team.TeamSerializedDates | src/types/Team.ts:113-115 | Top-level `createdAt`/`updatedAt` are parsed with null for an invalid date |
| Team.TeamSerializedOtherFields | src/types/Team.ts:112-139 | Every top-level field other than `createdAt`, `updatedAt` and the member maps, `id` included, is kept |
| Team.TeamSerializedMembers | src/types/Team.ts:117-136 | Each member map keeps its keys and has every entry rewritten by the member rule |
| Salt.DrawIndex | src/utils/generateSalt.ts:12 | `floor(r * 62)` for a draw in [0, 1) is an index into the alphabet |
| Salt.AlphabetIsAlphanumeric | src/utils/generateSalt.ts:1 | The alphabet has 62 characters and holds exactly the characters of `[A-Za-z0-9]` |
| Salt.GenerateSalt | src/utils/generateSalt.ts:9-15 | The length is the requested one (0 when it is 0 or less); character i is the alphabet at the index of draw i; every character is alphanumeric |
| Salt.GenerateDefaultSalt | src/utils/__tests__/generateSalt.test.ts:5-8 | Without an argument the salt has 16 alphanumeric characters, character i being the alphabet at the index of draw i |
| Rundown.PrimitivesAreSingleBits | src/types/Rundown.ts:18-25 | VIEW, EDIT, SHOWCALL, MANAGE and EDIT_PARTIAL are distinct single bits, none of them the reserved bit 16 |
| Rundown.RoleSetsAreUnions | src/types/Rundown.ts:31-37 | Each role set is the bitwise or of its primitives |
| Rundown.RoleSetsNest | src/types/Rundown.ts:31-37 | VIEWER within EDITOR within SHOW_CALLER within ADMIN; every set grants VIEW; PARTIAL_EDITOR fails the EDIT check and passes EDIT_PARTIAL; no other set holds EDIT_PARTIAL |
| Rundown.GrantsMonotone | src/types/Rundown.ts:57-58 | A permission word that includes another passes every `(p & flag) !== 0` check the other passes |
| Rundown.RundownDefaults | src/types/Rundown.ts:133-157 | The defaults object around a salt of 16 alphanumeric characters, character i being the alphabet at the index of draw i |
| Rundown.RundownDefaultValues | src/types/Rundown.ts:133-157 | Status draft, the given salt and start time, empty name and logo |
| Rundown.RundownDefaultCollections | src/types/Rundown.ts:139-154 | No columns, cues or text variables; the default settings |
| Rundown.RundownNullIds | src/types/Rundown.ts:135-143 | Null team, event, runner, prompter and start cue ids |
| Rundown.RundownNullDates | src/types/Rundown.ts:142-156 | Null end time, timezone, deletion and archive dates |
| Rundown.RundownDefaultKeys | src/types/Rundown.ts:133-157 | The defaults hold exactly the rundown's eighteen non-system keys |
| Rundown.RundownFromSnapshot | src/types/Rundown.ts:162-166 | Converts exactly `startTime`, `endTime`, `deletedAt`, `archivedAt`; throws only as fromSnapshot does |
| Rundown.RundownFromSerialized | src/types/Rundown.ts:171-175 | Converts those four fields plus `createdAt`, `updatedAt` and copies the rest |
| Rundown.RundownWireRoundTrip | src/types/Rundown.ts:171-175 | A rundown whose six dates are dates or null survives the ISO wire form |
| Cell.CellDefaults | src/Cell.ts:49-53 | `cueId` and `columnId` are `REQUIRED`, `content` is `{}`, listed in for...in order |
| Cell.CellDefaultsRequireIds | src/Cell.ts:49-53 | Merging with the cell defaults succeeds iff both ids are truthy; a missing `cueId` is reported before a missing `columnId`; on success both ids are copied and a falsy content becomes `{}` |
| Cell.CellFromSnapshot | src/Cell.ts:58-63 | Throws only without a payload; every stored field is copied and only the system fields come from the metadata |
| Cell.CellFromSerialized | src/Cell.ts:68-73 | Converts only `createdAt`/`updatedAt` |
| Cue.CueDefaultTiming | src/types/Cue.ts:75-92 | Type cue, start mode flexible, null start time and deletion date, zero duration and day offset |
| Cue.CueDefaultFlags | src/types/Cue.ts:75-92 | Empty texts; `locked`, `scheduled` and the three settings flags false |
| Cue.CueDefaultKeys | src/types/Cue.ts:75-92 | The defaults hold exactly the listed keys, none of them required |
| Cue.CueDefaultsFromEmpty | src/types/Cue.ts:75-92 | Merging the empty bag with the cue defaults gives the defaults |
| Cue.CueFromSnapshot | src/types/Cue.ts:97-101 | Converts exactly `startTime` and `deletedAt`; throws only as fromSnapshot does |
| Cue.CueSnapshotStoredFields | src/types/Cue.ts:97-101 | A stored null or absent start time is null; any other non-system field the document lacks stays absent |
| Cue.CueFromSerialized | src/types/Cue.ts:106-110 | Converts `startTime`, `deletedAt`, `createdAt`, `updatedAt` |
| Event.EventDefaults | src/types/Event.ts:43-50 | Empty name and logo; null team, deletion and archive; a salt of 16 alphanumeric characters, character i being the alphabet at the index of draw i |
| Event.EventFromSnapshot | src/types/Event.ts:55-59 | Converts exactly `deletedAt` and `archivedAt` |
| Event.EventFromSerialized | src/types/Event.ts:64-68 | Converts `deletedAt`, `archivedAt`, `createdAt`, `updatedAt` |
| Mention.MentionDefaults | src/types/Mention.ts:40-45 | Key `'1'`, name `'New Item'`, empty description, colour `#6b6bff` of the `#RRGGBB` shape |
| Mention.MentionFromSnapshot | src/types/Mention.ts:50-55 | Throws only without a payload; only the system fields come from the metadata |
| Mention.MentionFromSerialized | src/types/Mention.ts:60-64 | Converts only `createdAt`/`updatedAt` |
| Runner.RunnerDefaults | src/Runner.ts:80-96 | `kickoff` and `lastStop` are now, `deadline` is ten minutes later; not running; null cue ids; empty cue records and log |
| Runner.RunnerFromSnapshot | src/Runner.ts:101-106 | No data field is rewritten, so nested ISO start times stay strings |
| Runner.RunnerFromSerialized | src/Runner.ts:111-115 | Converts only the top-level `createdAt`/`updatedAt`; every other key, nested cue records included, is copied |

## Left out

- Clocks, randomness and date parsing are parameters: `now`, `random` and
  `parse`. The two `new Date()` calls of fromSnapshot can read different
  milliseconds; the model gives both the same `now`.
- The start time that date-fns `parse('09:00:00', 'HH:mm:ss', new Date())`
  gives, and the `CUE_BACKGROUND_COLORS` palette, are parameters of
  `Rundown.RundownDefaultsWith`. Both come from packages that are not part of
  this model.
- Numbers are integers. NaN, fractions and floating point are not modelled.
  The runner's `now + 10 * 60000` is exact here.
- Aliasing: teamFromSerialized reassigns entries of the caller's own
  `members`/`pending` maps, because fromSerialized copies shallowly. The
  model works on values and does not capture this in-place mutation of the
  caller's object.
- Team.ConvertMembersOf: a `members` or `pending` field that is an array or a
  string is not walked. In the code, for...in over an array visits its
  indices, and a null element there throws a TypeError.
- The for...in key order of an object is the explicit `order` sequence. The
  JavaScript rule that integer-like keys come first is not modelled.
- `useDefaults` with a null or undefined `values` behaves like the empty
  record, which the model passes as `map[]`.
- That two generated salts differ holds only with high probability. It is
  not a property of one call and is not modelled.
- The type-only files and type projections carry no runtime logic and are
  not modelled: typeUtils, FirebaseBuiltins, Scheduler, ApiV0, index, and
  the older Cue, Rundown, Team and Column files.
- `Converters.SerializedDateField`, `Converters.SnapshotDateField`: a
  declared date field holding any other non-null value (a number, a map
  without `toDate`, a date) is kept unchanged, not set to null, as
  src/utils/converters.ts:43-50 and 68-76 do.
