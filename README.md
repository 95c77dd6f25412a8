# Pronote user parameters, modelled in Dafny

This project models `getUser` from the Pronote client (`src/fetch/pronote/user.js`).
`getUser` turns the portal's `ParametresUtilisateur` payload into the profile of the
logged-in user. The model covers these parts:

- **The profile.** The generic fields of the user resource, then the fragment of
  the user's role, then the fixed fields. The fixed fields are the establishments,
  settings, session authorizations, merged authorizations, password rules, kiosk
  access and the three tab lists.
- **The tab tree.** `parseTab` turns each raw `{ G, Onglet }` node into
  `{ id, subs }`, recursively. `listeOnglets.map(parseTab)` builds the `tabs` list.
- **The role dispatcher.** `getSpecificData` dispatches on the role name. It covers
  the `student`, `parent` and `administration` handlers, the `teacher` branch that
  returns `undefined`, and the `{}` returned for every other name.
- **The student record.** `getStudent` builds it: the conditional `avatar`, the
  `isCorePeriod` test (`=== 1`), and the pillar `subject` (`Service && parse(Service)`).
- **`getDateWithHours`.** It moves a `Date` in place by the offset written in an
  hour string and returns the same object.

Raw data is a small JavaScript value model (`JsValue.Value`). A JavaScript
exception is the `Thrown` case of `JsValue.Result`. The model's `getUser` throws
in these places:

- when the role fragment is `undefined` (a `teacher` session), because
  destructuring it fails;
- when a parent's `listeRessources` is not an array, because `.map` is not a
  function;
- when `listeOnglets`, or the truthy `Onglet` of a tab, is not an array, for the
  same reason;
- when a tab node is `undefined` or `null`, because destructuring it fails.

Missing payload fields that the source would read through (such as
`user.autorisations.cours` when `autorisations` is absent) do not throw in the
model; "## Left out" says which members this affects.

The helpers `parse`, `fromPronote` and `getFileURL` come from other files of the
library. They are function values in `Externals.Collaborators`. The model
assumes nothing about what they compute, but their types make them total,
deterministic and non-throwing: two calls with the same argument give equal
values, and `fromPronote` always returns an object.

`getDateWithHours` is modelled twice:

- `Hours.Date` is a class with one mutable field, the time in minutes. Its methods
  `SetHours` and `SetMinutes` change it in place, as the source does.
- `Hours.DateWithHours` is the pure specification the method is proved against.

**The minutes of an hour string are dropped.** A string such as `"1h45"` evidently
stands for one hour and 45 minutes, which would add 105 minutes. The code reads
the minutes with `substring(h)`, and that substring still starts with the `'h'`.
`~~"h45"` is 0, so any string containing an `'h'` adds whole hours only, and
`"1h45"` adds 60 minutes. The model follows the code (`Hours.OffsetDropsMinutes`,
`Hours.OffsetExamples`).

`getDateWithHours` changes the `Date` that `parse(date)` returned and returns that
same object. `Hours.GetDateWithHours` modifies its argument accordingly, and
`Hours.SessionTimes` covers the case where `from` and `to` are the same object.

Modules, one file each:

| module | file | covers |
|---|---|---|
| `JsValue` | `js_value.dfy` | values, truthiness, `&&`/`||`, property reads, `.map` with exceptions |
| `JsString` | `js_string.dfy` | `indexOf`, `substring`, `~~` on strings |
| `Externals` | `externals.dfy` | the session and the imported helpers |
| `Tabs` | `tabs.dfy` | `parseTab` and the tab list |
| `Hours` | `hours.dfy` | `Date`, `getDateWithHours` |
| `Student` | `student.dfy` | `getStudent` |
| `Roles` | `roles.dfy` | `getSpecificData` and the role handlers |
| `User` | `user.dfy` | `getUser` |
| `UserProperties` | `user_properties.dfy` | lemmas about the assembled profile |

## Model

| member | source | states |
|---|---|---|
| JsValue.And | src/fetch/pronote/user.js:128 | `a && b` is truthy exactly when both operands are, and it is one of the two operands |
| JsValue.Or | src/fetch/pronote/user.js:72 | `a \|\| b` is truthy exactly when either operand is, and it is one of the two operands |
| JsValue.Collect | src/fetch/pronote/user.js:72 | `.map` with a throwing callback succeeds exactly when every element succeeds, keeping length and order; otherwise it rethrows the error of the first element that threw |
| JsString.IndexOf | src/fetch/pronote/user.js:249 | `indexOf('h')` is -1 exactly when there is no 'h'; otherwise it is the position of an 'h' with none before it |
| JsString.Clamp | src/fetch/pronote/user.js:251 | a `substring` argument is clamped to [0, length]: a negative one becomes 0, one past the length becomes the length, and one in range is kept |
| JsString.Substring | src/fetch/pronote/user.js:251-252 | `substring(a, b)` is the slice between a and b when both lie in [0, length], whichever comes first; a negative end (the -1 of a missing `'h'`) gives the prefix up to the start, and the empty string when the start is not positive; `(0, length)` gives the whole string |
| JsString.ToInteger | src/fetch/pronote/user.js:251-252 | `~~s` is 0 for a string that is not all digits, including the empty string and one starting with a letter |
| JsString.ToIntegerDigits | src/fetch/pronote/user.js:251 | `~~` of the decimal digits of n is n |
| JsString.ToIntegerLeadingZero | src/fetch/pronote/user.js:251 | a leading zero, as in "08", does not change the value `~~` gives |
| JsString.LeadingZeroValue | src/fetch/pronote/user.js:251 | the decimal value of a digit string does not change with a leading zero |
| Hours.OffsetMinutes | src/fetch/pronote/user.js:249-252 | the minutes added are a whole number of hours whenever the string contains an 'h' |
| Hours.DateWithHours | src/fetch/pronote/user.js:247-255 | with the model's `~~`, which has no signs, the offset never moves a date backwards |
| Hours.OffsetMinutesCases | src/fetch/pronote/user.js:249-252 | with an 'h', the offset is 60 times the value of the text before the first 'h' and nothing for the minutes; without one, the whole string is read as minutes |
| Hours.OffsetDropsMinutes | src/fetch/pronote/user.js:252 | for the decimal digits of H, then an 'h', then any text at all, the offset is H hours: what follows the 'h', the minutes included, is dropped |
| Hours.OffsetExamples | src/fetch/pronote/user.js:249-252 | "1h45" adds 60 minutes, "0h00" adds nothing, "45" adds 45 minutes |
| Hours.RollsOverMidnight | src/fetch/pronote/user.js:251-252 | 23:30 advanced by "1h45" is 00:30 on the next day |
| Hours.Date.Hours | src/fetch/pronote/user.js:251 | `getHours()` lies in 0..23, and the time is the start of its day plus the hours and minutes |
| Hours.Date.Minutes | src/fetch/pronote/user.js:252 | `getMinutes()` lies in 0..59 and is the time modulo an hour |
| Hours.Date.SetHours | src/fetch/pronote/user.js:251 | `setHours(h)` moves the time by h minus the current hour, rolling over days; for h in 0..23 the hour becomes h and the minute and the day are kept |
| Hours.Date.SetMinutes | src/fetch/pronote/user.js:252 | `setMinutes(m)` moves the time by m minus the current minute, rolling over hours; for m in 0..59 the minute becomes m and the hour is kept |
| Hours.GetDateWithHours | src/fetch/pronote/user.js:247-255 | changes the date in place to the time `DateWithHours` gives and returns the same object |
| Hours.SessionTimes | src/fetch/pronote/user.js:156-159 | with distinct dates, `from` and `to` each move by their own offset; when `parse(date)` returns one object twice, it moves by both offsets |
| Tabs.ChildList | src/fetch/pronote/user.js:72 | `subs \|\| []` is the empty array when `Onglet` is falsy and `Onglet` otherwise |
| Tabs.ParseTab | src/fetch/pronote/user.js:70-73 | `parseTab` succeeds exactly on well-formed nodes; it keeps `G` as the id and keeps the number of children |
| Tabs.ParseTabList | src/fetch/pronote/user.js:64 | `listeOnglets.map(parseTab)` succeeds exactly when the list is an array of well-formed nodes; entry i is `parseTab` of raw entry i |
| Tabs.TabValues | src/fetch/pronote/user.js:64 | the output list has one `{ id, subs }` per tab, in order |
| Tabs.ParseTabChildren | src/fetch/pronote/user.js:70-73 | child i of the result is `parseTab` of raw child i |
| Tabs.ParseTabLeaf | src/fetch/pronote/user.js:72 | an absent, `null` or falsy child list gives `subs == []` |
| Tabs.ParseTabShape | src/fetch/pronote/user.js:70-73 | the result has the node count, depth and multiset of ids of the raw tree |
| Tabs.ParseUnparse | src/fetch/pronote/user.js:70-73 | normalising the raw form of any tab gives that tab back |
| Tabs.TabListOrder | src/fetch/pronote/user.js:64 | `tabs` has the length and order of `listeOnglets`, and each entry has the shape and ids of its raw tab |
| Student.Subject | src/fetch/pronote/user.js:128 | `subject` is the falsy `Service` itself when `Service` is falsy, and `parse(Service)` otherwise |
| Student.Avatar | src/fetch/pronote/user.js:105-111 | the `avatar` object holds at most the key `avatar` |
| Student.GetStudent | src/fetch/pronote/user.js:113-138 | the record holds every student key, and nothing beyond the generic fields, those keys and `avatar` |
| Student.ClassAndTabs | src/fetch/pronote/user.js:117-137 | the entries after the avatar are exactly the class, history, groups and the two tab lists |
| Student.ClassHistoryEntry | src/fetch/pronote/user.js:118-121 | an entry of `classHistory` has exactly `hadMarks` and `hadOptions`, copied from `AvecNote` and `AvecFiliere` |
| Student.Pillar | src/fetch/pronote/user.js:125-129 | a pillar has exactly its two flags and `subject`, and `subject` is the falsy `Service` itself or `parse(Service)` |
| Student.Level | src/fetch/pronote/user.js:124-130 | a level has exactly the key `pillars` |
| Student.PillarTab | src/fetch/pronote/user.js:123-131 | a pillar tab has exactly the key `levels` |
| Student.IsCorePeriod | src/fetch/pronote/user.js:134 | a core period always has a `GenreNotation` of its own, and it is a number |
| Student.Period | src/fetch/pronote/user.js:133-135 | a period has exactly the boolean `isCorePeriod`, true exactly when `GenreNotation` is the number 1 |
| Student.PeriodTab | src/fetch/pronote/user.js:132-137 | a period tab has exactly `periods` and `defaultPeriod` |
| Student.StudentAvatar | src/fetch/pronote/user.js:105-116 | `avatar` is present exactly when `avecPhoto` is truthy (or the generic fields carry one); when `avecPhoto` is truthy it is `getFileURL(session, { id: N, name: 'photo.jpg' })` |
| Student.StudentFields | src/fetch/pronote/user.js:113-122 | the record's keys are the generic keys, the student keys and `avatar` when `avecPhoto` holds; the establishment, class and groups come from their raw fields |
| Student.CorePeriodExamples | src/fetch/pronote/user.js:134 | `isCorePeriod` is true for the number 1 and false for "1", `true`, 2, 0 and an absent code |
| Student.CorePeriodStrict | src/fetch/pronote/user.js:133-135 | `isCorePeriod` is true exactly when `GenreNotation` is the number 1 |
| Student.PillarSubject | src/fetch/pronote/user.js:125-129 | a pillar copies its two flags and takes `Service && parse(Service)` as its subject |
| Roles.Parts | src/fetch/pronote/user.js:10 | destructuring the fragment throws exactly for `undefined`; `{}` gives no data and no authorizations; a handler's fragment gives its own data and authorizations |
| Roles.StudentData | src/fetch/pronote/user.js:93-101 | the student fragment holds every student key in its data, and its only authorization is `maxUserWorkFileSize`, read from `tailleMaxRenduTafEleve` |
| Roles.DateWithHoursValue | src/fetch/pronote/user.js:157-158 | a session time is the parsed date moved by the offset of its hour string |
| Roles.SessionEntry | src/fetch/pronote/user.js:156-159 | a session entry has exactly `from` and `to`, and they are equal when the start and end strings are |
| Roles.ChildRecord | src/fetch/pronote/user.js:154-159 | a child's record is its student record plus `sessions`, read from the callback's argument; every student field is kept |
| Roles.ParentStudent | src/fetch/pronote/user.js:154 | each child is an object; what `fromPronote` puts in it is not constrained, and the callback it receives is stated by `Roles.ChildRecord` |
| Roles.ParentData | src/fetch/pronote/user.js:141-170 | succeeds exactly when `listeRessources` is an array; `students` then has one entry per child, in order |
| Roles.AdministrationLists | src/fetch/pronote/user.js:177-180 | the administration data holds exactly the teachers and the classes |
| Roles.ConsultationFlags | src/fetch/pronote/user.js:183-191 | the nine consultation and messaging flags |
| Roles.LessonEntryFlags | src/fetch/pronote/user.js:192-198 | the seven lesson and roll-call entry flags |
| Roles.IncidentEntryFlags | src/fetch/pronote/user.js:199-204 | the six absence, lateness and punishment entry flags |
| Roles.AbsenceFlags | src/fetch/pronote/user.js:205-211 | the seven absence follow-up and assessment flags |
| Roles.PublicationFlags | src/fetch/pronote/user.js:212-219 | the eight communication, publication and memo flags |
| Roles.SanctionFlags | src/fetch/pronote/user.js:220-224 | the five incident and sanction flags |
| Roles.AdministrationGroups | src/fetch/pronote/user.js:225-242 | the six entries after the flags; `intendance`, `cours` and `compte` are objects holding exactly their two, five and two flags |
| Roles.AdministrationAuthorizations | src/fetch/pronote/user.js:182-243 | the administration authorizations are exactly the 42 flags and the six later entries |
| Roles.AdministrationData | src/fetch/pronote/user.js:172-245 | the administration fragment holds the teachers and the classes as data, and exactly the administration authorizations |
| Roles.GetSpecificData | src/fetch/pronote/user.js:75-91 | the dispatcher throws only for a `parent` (when its `.map` fails) |
| Roles.Dispatch | src/fetch/pronote/user.js:77-90 | `student`, `parent` and `administration` each go to their own handler; `teacher` gets `undefined`; any other name gets `{}` |
| Roles.UsableFragment | src/fetch/pronote/user.js:10 | the dispatcher yields a fragment that can be destructured exactly when the role is not `teacher` and a parent's `listeRessources` is an array |
| Roles.StudentFragment | src/fetch/pronote/user.js:93-101 | the student fragment is the student record plus the single authorization `maxUserWorkFileSize` |
| Roles.ParentAuthorizationKeys | src/fetch/pronote/user.js:162-168 | a parent's authorizations are exactly its five flags |
| Roles.SessionEntryTimes | src/fetch/pronote/user.js:156-159 | `from` and `to` are the same parsed date, moved by the start and the end string respectively |
| User.MergeAuthorizations | src/fetch/pronote/user.js:48-59 | the merged keys are the union; a role key wins; a generic key the role lacks keeps its generic value; merging nothing gives the generic authorizations back |
| User.GenericAuthorizations | src/fetch/pronote/user.js:49-57 | the generic authorizations have exactly their nine keys |
| User.EstablishmentInfo | src/fetch/pronote/user.js:18-27 | an establishment has exactly its eight fields, and `address` is the two address lines in order |
| User.UserSettings | src/fetch/pronote/user.js:28-43 | `userSettings` has exactly its four fields, and `timetable` is built from `EDT` |
| User.TimetableSettings | src/fetch/pronote/user.js:30-40 | the timetable settings have exactly their nine fields |
| User.ProfileFields | src/fetch/pronote/user.js:18-66 | the fixed fields of the profile are exactly its eleven keys |
| User.SettingsFields | src/fetch/pronote/user.js:18-59 | the first four fixed fields have exactly their keys, and `authorizations` is the generic authorizations with the role's spread over them |
| User.AccessFields | src/fetch/pronote/user.js:60-66 | the last seven fixed fields have exactly their keys, and `tabs` is the list of normalised tabs |
| User.Assemble | src/fetch/pronote/user.js:10-67 | the profile is built exactly when the fragment was produced, can be destructured and the tab list was normalised; the dispatcher's exception comes first, then the destructuring's |
| User.GetUser | src/fetch/pronote/user.js:7-68 | a built profile holds every fixed field; a `teacher` session and a `listeOnglets` that is not an array always throw |
| UserProperties.ProfileFieldsAt | src/fetch/pronote/user.js:48-64 | the fixed `authorizations` are the merge, and `tabs` is the list of normalised tabs |
| UserProperties.AssembleParts | src/fetch/pronote/user.js:15-67 | a built profile is the generic fields, then the role data, then the fixed fields |
| UserProperties.AssembledAuthorizations | src/fetch/pronote/user.js:48-59 | for any fragment, the profile's `authorizations` are the generic ones with the fragment's spread over them |
| UserProperties.AssembledTabs | src/fetch/pronote/user.js:64 | for any fragment, the profile's `tabs` are the normalised tabs, in order |
| UserProperties.AssembledEmpty | src/fetch/pronote/user.js:15-17 | with the `{}` fragment, the profile holds only the generic and the fixed fields, and its `authorizations` are the generic ones |
| UserProperties.GetUserSucceeds | src/fetch/pronote/user.js:7-68 | a profile is built exactly when the role is not `teacher`, a parent's `listeRessources` is an array, and `listeOnglets` is an array of well-formed tabs |
| UserProperties.TeacherFails | src/fetch/pronote/user.js:83-85 | a `teacher` session always throws the destructuring error and never yields a profile |
| UserProperties.AuthorizationsMerged | src/fetch/pronote/user.js:48-59 | in the profile, a role authorization overrides the generic one, other generic ones are kept, and the keys are the union |
| UserProperties.UnlistedRoleAddsNothing | src/fetch/pronote/user.js:88-89 | an unlisted role adds no data keys and no authorization keys |
| UserProperties.StudentAuthorizations | src/fetch/pronote/user.js:97-99 | a student's authorizations are the generic ones plus `maxUserWorkFileSize`, read from `tailleMaxRenduTafEleve` |
| UserProperties.ProfileTabs | src/fetch/pronote/user.js:64 | the profile's `tabs` has the length and order of `listeOnglets`, entry i being raw tab i normalised |
| UserProperties.TabsOfList | src/fetch/pronote/user.js:64 | the output tab list has the length of `listeOnglets`, entry i being raw tab i normalised |

## Left out

- The `request(session, 'ParametresUtilisateur')` call and its `async` plumbing are network I/O. The payload's `donnees` is the `user` parameter.
- The code of `parse`, `fromPronote` and `getFileURL` belongs to other files of the library and is not part of this model. They are total, deterministic, non-throwing function values whose results are otherwise unconstrained.
- JsValue.Prop: reading a property of `undefined` or `null` gives `undefined`, where JavaScript throws a TypeError. Only the throws the normaliser depends on are modelled: the `undefined` fragment, a non-array tab list or child list, and a non-array `listeRessources`.
- Roles.ParentData: its success condition ignores the TypeErrors of reads through an absent `ressource` or `autorisations` (user.js:143-168); it throws only when `listeRessources` is not an array.
- Roles.GetSpecificData: only the parent branch can throw in the model; the source's student branch also throws on an absent payload (user.js:96-98), and so do the other handlers on absent fields.
- Roles.UsableFragment: its success condition ignores the TypeErrors of missing payload fields, as for the two members above.
- UserProperties.GetUserSucceeds: its success condition ignores the TypeErrors of missing payload fields (user.js:12-13, 18-66), including the destructuring of an absent `parametresUtilisateur` (user.js:28). The model builds a profile for a `guest` session whose payload holds only `listeOnglets: []`; the source throws there.
- JsString.ToInteger: models `~~` only as "a digit string gives its value, anything else gives 0". It does not model whitespace trimming, signs, hexadecimal, exponents, fractions or the 32-bit wrap-around of the full conversion.
- Hours.DateWithHours: never moves a date backwards only because the model's `~~` has no signs. In the source `~~"-1"` is -1, so `"-1h00"` moves a date back one hour.
- Hours.Date: time is a whole number of minutes. Seconds, local time zones and daylight-saving changes are not modelled.
- JsValue.Value: numbers are reals; NaN and the infinities are not represented.
- Roles.DateWithHoursValue: assumes each `parse(date)` call yields its own date object. `Hours.SessionTimes` covers the case where both calls return the same object. When the parsed date is not a `Date` or the hour text is not a string, it gives `undefined`, where the source throws a TypeError.
- Roles.SessionEntryTimes: rests on the same assumption; when both `parse(date)` calls return one object, `from` and `to` are that object moved by both offsets, as `Hours.SessionTimes` states.
- Object spread of a string or an array (`...data` when `data` is not an object) is not modelled. Role fragments and the generic fields are maps.
