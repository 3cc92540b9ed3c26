# CodeCrafters Labs mentoring dashboard — derivation logic in Dafny

The dashboard reads a list of student records from the `students` path of a
remote store once, on mount, and shows them in a table. What it decides on
its own is small and pure: the colour and text of the certificate tags, the
colour and label of each grade chip in the "View Grades" dialog, the Batch
sort comparator, the case-sensitive Name prefix filter, and the rule that the
table's `data` state is replaced only when the read returns an existing
snapshot. Beside the record viewer sit two helpers that it does not call:
`customTagBgColor`, a second certificate colour mapping, and `currentDate`,
which formats a date with an ordinal day suffix (`1st`, `2nd`, `11th`, …).
This project models those pieces and proves what they promise.

Modules:

- `Wrappers` — `Option`, standing for JavaScript's `undefined`.
- `Builtins` — the JavaScript built-ins the logic uses: truthiness of an
  optional string, `||`, out-of-range array lookup, `startsWith`, `slice`,
  `>>` and `^` on small non-negative numbers, and integer-to-text.
- `Types` — the `Data` record (src/types/index.ts).
- `Utils` — `customTagBgColor` and `currentDate` with its `ordinal` bit trick
  (src/utils/index.ts).
- `FetchData` — the column lambdas and the `data` state of the record viewer
  (src/components/FetchData.tsx).

The ordinal expression `["th","st","nd","rd"][(n % 100 >> 3 ^ 1 && n % 10) || 0] || "th"`
is modelled operator by operator: `>>` as repeated halving, `^` as bitwise
exclusive or, `&&`/`||` by JavaScript's value-returning rules, and the
lookup past index 3 as `undefined`. `OrdinalIsConventional` proves it equal
to the usual English rule for every non-negative day number.

Grades are an ordered list of (key, score) entries, in the order
`Object.entries` yields them. The certificate fields are declared `string`
in `Data` but the stored record may omit them; both there and in the
helper's argument type they are `Option<string>`, and "truthy" means present
and non-empty.

The table footer is the fixed text "CodeCrafters Labs Mentoring Program -
2024"; `currentDate` is not called by the record viewer, so `CurrentDate`
is modelled on its own.

## Model

| member | source | states |
|---|---|---|
| `Builtins.Truthy` | src/utils/index.ts:6-12 | an optional string operand is truthy exactly when it is defined and non-empty |
| `Builtins.ShiftRight` | src/utils/index.ts:18 | `x >> k` never exceeds `x` |
| `Builtins.OrElse` | src/components/FetchData.tsx:127 | the `or` fallback is the value when it is present and non-empty, otherwise the fallback |
| `Builtins.ElementAt` | src/utils/index.ts:18 | indexing the suffix table gives the element for an index below its length and `undefined` otherwise |
| `Builtins.StartsWith` | src/components/FetchData.tsx:60 | `startsWith` holds exactly when the prefix is no longer than the string and equals its leading characters |
| `Builtins.Slice` | src/components/FetchData.tsx:175 | `slice(start, end)` has length clamped to the string's end (empty when start is past it) and copies the characters from `start` on |
| `Builtins.ShiftRightThree` | src/utils/index.ts:18 | `x >> 3` on a non-negative number is `x / 8` |
| `Builtins.BitXor` | src/utils/index.ts:18 | `a ^ b` is zero exactly when `a == b`, and its low bit is the parity of `a + b` |
| `Builtins.NatToString` | src/utils/index.ts:19 | the interpolated number is a non-empty run of decimal digits without a leading zero, "0" only for zero |
| `Builtins.IntToString` | src/utils/index.ts:19 | the interpolated year begins with '-' exactly when negative, followed by the digits of its absolute value; otherwise it is the digit text |
| `Builtins.ParseNatToString` | src/utils/index.ts:19 | reading the printed digits back gives the number: the day and year text loses nothing |
| `Builtins.NatToStringInjective` | src/utils/index.ts:19 | two numbers print the same text only when they are equal |
| `Utils.CustomTagBgColor` | src/utils/index.ts:3-14 | english is 'default', scrum 'cyan', cyberSecurity 'green' exactly when that field is truthy, and each is 'volcano' exactly when it is not |
| `Utils.CustomTagBgColorFieldwise` | src/utils/index.ts:5-13 | each output colour depends only on its own certificate field |
| `Utils.SuffixIndex` | src/utils/index.ts:18 | the computed index is always below 10 |
| `Utils.SuffixIndexCases` | src/utils/index.ts:18 | the index is 0 when `n % 100` is in 8..15 and the last digit `n % 10` otherwise |
| `Utils.Ordinal` | src/utils/index.ts:18 | the suffix is always one of "th", "st", "nd", "rd" |
| `Utils.OrdinalIsConventional` | src/utils/index.ts:18 | for every `n >= 0` the bit trick gives "th" for `n % 100` in 11..13, else "st"/"nd"/"rd" for last digit 1/2/3, else "th" |
| `Utils.OrdinalTeenFallback` | src/utils/index.ts:18 | every `n` with `n % 100` in 8..15 (which includes 11, 12, 13) gets "th" |
| `Utils.OrdinalDays` | src/utils/index.ts:18 | days 1,2,3,4,11,12,13,21,22,23,31 get st,nd,rd,th,th,th,th,st,nd,rd,st |
| `Utils.CurrentDate` | src/utils/index.ts:16-20 | the text is the month name, a space, the day digits with the conventional suffix, ", " and the year, each part at its position |
| `Utils.CurrentDateExample` | src/utils/index.ts:16-20 | March 3 2024 reads "March 3rd, 2024" |
| `FetchData.BatchSorter` | src/components/FetchData.tsx:40 | the comparator is negative, zero, positive exactly when `a.batch` is less than, equal to, greater than `b.batch` |
| `FetchData.BatchSorterAntisymmetric` | src/components/FetchData.tsx:40 | `cmp(a, b) == -cmp(b, a)` |
| `FetchData.BatchSorterTotalPreorder` | src/components/FetchData.tsx:40 | "not after" under the comparator is total and transitive |
| `FetchData.NameFilter` | src/components/FetchData.tsx:59-60 | a record is kept exactly when the chosen value is a case-sensitive prefix of its name |
| `FetchData.NameFilterPrefixes` | src/components/FetchData.tsx:59-60 | the empty value, the full name and every prefix of the name keep the record |
| `FetchData.NameFilterCaseSensitive` | src/components/FetchData.tsx:47-60 | "Ezra" keeps a record named "Ezra", "ezra" does not, and of the offered values "Krys" and "Ezra" only "Ezra" keeps it |
| `FetchData.CertificateTag` | src/components/FetchData.tsx:117-134 | one tag is coloured with its "complete" colour when the field is truthy, else 'volcano', and reads the stored value, else "Incompleted" |
| `FetchData.CertificateTags` | src/components/FetchData.tsx:116-134 | three tags, english/scrum/cyberSecurity: 'geekblue'/'cyan'/'green' exactly when truthy, 'volcano' exactly when not; text is the stored value or "Incompleted" |
| `FetchData.CertificateTagsAgainstHelper` | src/components/FetchData.tsx:117-123 | the inline colours match `customTagBgColor` for scrum and cyberSecurity; for english they match exactly when the certificate is incomplete |
| `FetchData.CertificateTagLabelFollowsColor` | src/components/FetchData.tsx:117-134 | a 'volcano' tag always reads "Incompleted", any other tag shows its non-empty stored value |
| `FetchData.GradeChipColor` | src/components/FetchData.tsx:163 | a chip is '#306317' exactly when its score is above 0 and '#d32029' exactly when it is 0 or negative |
| `FetchData.ChipLabel` | src/components/FetchData.tsx:175 | the label is "Test" followed by the key's characters at indices 4 and 5, cut at the key's end |
| `FetchData.GradeChips` | src/components/FetchData.tsx:161-181 | one chip per grade entry, in entry order, each with the entry's label, colour and score |
| `FetchData.DeclaredKeyLabels` | src/components/FetchData.tsx:175 | the six declared keys give "Test2", "Test4", "Test05", "Test07", "Test09", "Test11" |
| `FetchData.SingleRecordScenario` | src/components/FetchData.tsx:116-181 | the record with english "B2" and scores 10,20,0,-5,15,5 shows tags B2/Incompleted/Incompleted and chips positive, positive, negative, negative, positive, positive |
| `FetchData.RecordViewer.constructor` | src/components/FetchData.tsx:17 | the data starts empty |
| `FetchData.RecordViewer.OnSnapshot` | src/components/FetchData.tsx:22-28 | an existing snapshot replaces the data; a missing one leaves it unchanged and logs "No data available" |
| `FetchData.Mount` | src/components/FetchData.tsx:17-32 | after the one read on mount the rows are the snapshot when it exists and empty otherwise |

## Left out

- The Firebase `ref`/`get` read and the async effect around it: network I/O. The snapshot is an `Option<seq<Data>>` parameter, `None` when it does not exist; a rejected read is not modelled, as the code does not handle it.
- All markup and rendering (table, tags, buttons, modal, icons, the modal title and footer buttons): UI toolkit. The sorting and filtering algorithms belong to the table component, so only the comparator and the filter predicate are modelled.
- The `tel:`, `mailto:` and profile link strings of the Contact column: plain string interpolation into markup, with no behaviour of its own.
- `Date.toLocaleString`, `getDate` and `getFullYear`: library calls; `CurrentDate` takes the month name, day and year as parameters.
- JavaScript number semantics: `batch` and scores are unbounded integers, so `a.batch - b.batch` never rounds; `Ordinal` is defined for non-negative days only, where `%` agrees with Dafny's and the 32-bit conversion of `>>` and `^` is the identity.
- The JavaScript built-ins only on the inputs the code gives them. `ShiftRight` ignores that `>>` masks its shift count to five bits (the code shifts by 3). `NatToString` does not model the exponent form a template literal prints from 10^21 on (days are at most 31 and years stay within the `Date` range). `Slice` counts characters where JavaScript counts UTF-16 code units, which differs only for keys with surrogate pairs (the declared grade keys are ASCII).
- `Object.entries` ordering: grades are taken as already in entry order.
- Grade sums, progress indicators, a Stack filter, loading flags and notifications: the record viewer modelled here has none of them.
- src/App.tsx, src/customStyles/index.ts and the `FirebaseConfig` and `NotificationType` types: static configuration with no logic.
