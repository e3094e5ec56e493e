# lab-hll extraction engine, modelled in Dafny

lab-hll turns the text layer of a hospital lab report (PDF) into a one-paragraph
summary. Each page of the report is a sequence of text tokens. The extractor has
two drafts, `index.js` and `index01.js`. Both do the same four things:

- **Record.** They create a `diaExamen` record from token 13 of the first page:
  characters 0–10 are the date and 11–16 the time. The record has six groups
  (hemograma, electrolitos, función hepática, coagulación, función renal,
  otros), and every field starts as `null`.
- **Scan.** For every page, every token and every exam name of the catalog,
  they strip the token's leading whitespace and compare it with the name. On a
  match, the token at a fixed offset from the name goes into the name's field:
  `k + 21` for SEGMENTADO, `k + 20` for "LINFOCITOS ", `k - 2` for INR and
  `k - 3` otherwise. A match is skipped when the token at `k - 3` is
  "Valor Referencia" or "null".
- **Units.** They append the unit suffixes. From the white-cell count and the
  differential percentages they derive the absolute neutrophil (RAN) and
  lymphocyte (RAL) counts.
- **Report.** They print `>date time:` followed by one line per group, in a
  fixed order. Each line lists the group's fields that are not `null`, in
  declaration order, as `key value`.

The drafts differ in four ways:

- **Guard.** index.js does not check `k - 3 >= 0`; index01.js does.
- **Unit test.** index.js appends a unit when the value is `!= null`;
  index01.js when it is truthy.
- **Where units are applied.** index.js applies the units inside
  `formatSection`, to every group it prints. index01.js applies them once, to
  the record.
- **Assembly.** index.js builds the text with `+=` and adds a trailing newline.
  index01.js uses `join` and adds none.

The model follows the source's own shape:
- **State.** The record is a class (`Lab.DiaExamen`) whose six group objects
  (`Lab.JsObject`) are updated in place.
- **Loops and mutation.** The scan loops, `formatSection` of index.js and the
  unit steps of index01.js are methods. Each is proved equal to a
  specification function: `Scan.ScanAll`, `Index.Formatted`,
  `Index01.UnitsApplied`, `Index.Rendered` and `Index01.Result`.
- **Lemmas.** Lemmas state what those functions do, field by field.

A thrown TypeError is the result `None`. There are two cases:
- a missing header token;
- a Linfocitos that is not a string when Segmentados is set.

The module `Drafts` relates the two drafts:
- index.js lets a match among the first three tokens of a page through, and
  index01.js skips it. For a name whose value is read at `k - 3`, index.js
  then stores `undefined`. INR stores the token two places before it, which
  exists when INR is the third token. SEGMENTADO and "LINFOCITOS " store the
  token 21 and 20 places after them respectively, or `undefined` past the end
  of the page.
- Apart from that, both drafts fill the record identically.
- When no value that gets a unit is the empty string, both print the same
  text, up to index.js's trailing newline.

Quirks of the code the model keeps:
- **Sentinel guard.** The guard reads `k - 3` even for the three names whose
  value is elsewhere. It does not read the value's own index.
- **Out-of-range reads.** A value index past the end of the page stores
  `undefined`, and `undefined` is printed as `undefined`. The field is not left
  unset.
- **Asterisks.** `*` is removed only from the copy of Segmentados and
  Linfocitos used to derive RAN and RAL. The stored values keep it.
- **Empty values.** A match stores the raw token even when it is empty.
- **Throwing.** A Linfocitos that is not a string makes the differential throw,
  and then no report is produced at all.
- **Mutation.** Formatting mutates the record. In index01.js a second
  `formatResults` appends every unit again.

## Model

| member | source | states |
|---|---|---|
| Js.At | index.js:154 | `page[i]` is the token when `0 <= i < page.length`, and `undefined` for any other index, negative ones included |
| Js.Text | index.js:338 | a template literal prints `null` as "null", `undefined` as "undefined" and a string as itself |
| Js.StripLeading | index.js:146 | `replace(/\s*/, '')` leaves a suffix of the token |
| Js.StripLeadingRemovesSpaces | index.js:146 | what the strip removes is whitespace only |
| Js.StripLeadingStops | index.js:146 | what the strip leaves does not start with whitespace: the whole leading run goes |
| Js.StripLeadingIsName | index01.js:70-71 | a token strips to a catalog name iff it is that name behind whitespace only, so trailing characters (the space of "LINFOCITOS ") stay significant |
| Js.Substring | index.js:120 | `substring(start, end)` is the slice when in range, is clamped to the length, and swaps reversed arguments |
| Js.RemoveFirstStar | index.js:317 | `replace("*", "")` returns a string without `*` unchanged, and otherwise removes one character and keeps everything before the first `*` |
| Js.RemoveFirstStarAt | index.js:317-321 | with the first `*` at position `p`, `replace("*", "")` is the string with exactly that character cut out: `s[..p] + s[p+1..]` |
| Js.Join | index01.js:156 | joining no parts gives "", joining one part gives that part |
| Js.JoinSnoc | index01.js:170 | joining one more part adds the separator and the part at the end |
| Lab.Lookup | index.js:306 | reading a property the object does not have gives `undefined` |
| Lab.Assign | index.js:307 | after `obj[key] = v` the key reads `v`; an existing key keeps its place in the key order, a new key is appended |
| Lab.AssignElsewhere | index.js:307 | `obj[key] = v` leaves every other key reading as before |
| Lab.JsObject.constructor | index.js:6-17 | an object literal holds the given properties in the given order |
| Lab.JsObject.Put | index.js:307 | an assignment to an object's property updates exactly that object's property list |
| Lab.SectionOf | index.js:6-63 | every field belongs to the group that declares it |
| Lab.BlankLookup | index.js:6-17 | a group as declared has exactly its declared keys, each `null`, and any other key reads `undefined` |
| Lab.InitialWellShaped | index.js:2-69 | a new record has, in every group, exactly the declared keys in declaration order |
| Lab.InitialGet | index01.js:1-27 | in a new record every declared field is `null` and every undeclared one reads `undefined` |
| Lab.DiaExamen.constructor | index.js:2-69 | the constructor makes six distinct fresh group objects, and the record's value is the initial record for the date and time |
| Lab.DiaExamen.View | index.js:2-69 | each group of the record's value is its group object's property list |
| Lab.DiaExamen.Set | index.js:161 | `labDia.<group>.<field> = v` changes exactly that field of the group that declares it |
| Lab.Write | index.js:159-273 | after writing a field it reads the value; every other field of every group, the date and the time are unchanged; every group keeps its keys |
| Lab.CaseOf | index.js:159-273 | `switch (name)` enters a case labelled with the name, or no case when no label equals it |
| Lab.CatalogHasCases | index.js:70-77 | every exam name looked for has a case in the `switch` (index.js:159-273), so none of them matches without writing a field |
| Lab.CaseOfFirst | index01.js:84-117 | a `switch` enters the first case whose label is the name: a case is entered when no earlier case carries its label |
| Lab.FieldNamesDistinct | index.js:6-63 | no group declares a key twice |
| Lab.Stamp | index.js:120 | the header read throws iff there is no first page or it has no token 13; otherwise the date has at most 10 characters and the time at most 5, and for a full-length token they are characters 0–10 and 11–16 |
| Lab.ListedMembers | index.js:334 | `filter(value !== null)` keeps exactly the entries that are not `null` (`undefined` ones stay) |
| Lab.ListedAppend | index.js:334-336 | the filter keeps the entries' order: it distributes over concatenation |
| Lab.SectionLineBlank | index.js:334-341 | a group whose values are all `null` still prints `- title: ` with no items |
| Lab.ListedSnoc | index.js:334 | the filter keeps an entry added at the end of a group iff its value is not `null` |
| Lab.SectionLineSnoc | index01.js:152-158 | an entry added at the end of a group adds `key value` at the end of the line, after ", " unless it is the first item, and nothing when it is `null` |
| Units.AppendToLookup | index.js:306-308 | appending a unit changes only that field, and only when the test passes; the keys stay |
| Units.BloodCountsLookup | index.js:306-315 | "0" goes to Leucocitos, ".000" to Plaquetas and "%" to Hto, each when present, and nothing else changes |
| Units.CountedLookup | index.js:317-320 | deriving a count writes the absolute count from Leucocitos and the percentage without its first `*`, appends "%" to the percentage, and changes nothing else |
| Units.DifferentialLookup | index.js:316-325 | the differential throws iff Segmentados is present and Linfocitos is not a string; it writes RAN, Segmentados, RAL and Linfocitos as described, and nothing else |
| Units.CountsLookup | index01.js:129-141 | after the blood-count units and the differential, every field's value is stated: RAN and RAL are derived from the white-cell count already suffixed with "0" |
| Units.CoagulationUnitsLookup | index.js:326-331 | "%" goes to TP and " s" to TTPK, each when present, and nothing else changes |
| Scan.GuardIndexJs | index.js:154-157 | for a token index, `valueIndex < length` always holds, so the `else` branch never runs and a match is let through iff the token at `k - 3` is not a sentinel |
| Scan.GuardIndex01Js | index01.js:78 | index01.js lets a match through iff `k >= 3` and index.js's guard does |
| Scan.MatchWrites | index.js:154-273 | a catalog name writes a field exactly when it matches the token and the guard lets it through |
| Scan.StepGet | index.js:154-273 | one iteration of the loop body changes only the field the matched name's case writes, to the token at the name's offset |
| Scan.Run | index.js:139-287 | running the loop body over any positions keeps the date and time, and keeps every group's keys |
| Scan.ScanOrder | index.js:139-142 | the loops visit every (page, token, name) position exactly once, ordered by page, then token, then name |
| Scan.LastWriter | index.js:159-273 | the last visited position that writes a field, and no later position writes it |
| Scan.LastWriteWins | index.js:139-276 | after the scan each field holds the value stored by the last position that writes it, and a field no position writes keeps its value |
| Index.ScanPages | index.js:139-287 | the triple loop leaves the record equal to the specified scan of the pages |
| Index.TryNames | index.js:141-285 | the name loop at one token is one more step of the scan for each catalog name |
| Index.TryName | index.js:146-157 | the loop body matches, guards and stores exactly as one scan step specifies |
| Index.StoreValue | index.js:159-276 | the `switch` writes the token at the name's offset into the name's field |
| Index.FormattedThrows | index.js:316-325 | `formatSection` throws exactly when Segmentados is set and Linfocitos is not a string |
| Index.FormattedLookup | index.js:306-331 | otherwise it suffixes the units, overwrites RAN and RAL from the suffixed white-cell count, appends "%" to both percentages, and keeps every other value |
| Index.FormattedKeys | index.js:306-331 | when RAN and RAL are already keys, `formatSection`'s assignments create no key and keep the keys in their order, so the printed entries keep the group's order |
| Index.FormatSection | index.js:303-341 | `formatSection` mutates its group as specified and returns `- title: key value, ...` over the entries that are not `null`, or throws |
| Index.AppendUnit | index.js:306-308 | `if (data.key != null) data.key = data.key + suffix` |
| Index.DeriveCounts | index.js:316-325 | the Segmentados block writes RAN and Segmentados, then throws on a non-string Linfocitos, then writes RAL and Linfocitos |
| Index.CountFrom | index.js:317-321 | the two statements that derive one absolute count and suffix its percentage |
| Index.SectionResultNone | index.js:316-325 | one `formatSection` call throws iff its group's Segmentados is set and its Linfocitos is not a string |
| Index.LinesSome | index.js:346-352 | when every `formatSection` call returns, the six lines are those results in the order hemograma, función renal, electrolitos, función hepática, coagulación, otros |
| Index.LinesNone | index.js:346-352 | the six `formatSection` calls throw iff the hemograma's Segmentados is set and its Linfocitos is not a string |
| Index.IndentedJoin | index.js:354-359 | appending `"\n " + line` for each line is one `"\n "` followed by the lines joined with `"\n "` |
| Index.Append | index.js:356-359 | the loop appends `"\n " + line` for every line, in order |
| Index.FormattingSome | index.js:303-352 | when no call throws, every group's new contents are its `formatSection` mutation of the old contents, and the date and time stay |
| Index.FormattingThrows | index.js:316-325 | when the calls throw on a well-shaped record, only the hemograma has changed |
| Index.FormatAll | index.js:345-352 | the six lines are the groups' `formatSection` results in the order Hemograma, Función Renal, Electrolitos, Función Hepática, Coagulación, Otros, and the record's new state is `Formatting` of the old one |
| Index.Render | index.js:343-359 | the final string is `>date time:` followed by the indented lines, and the record's groups are left formatted in place as `Formatting` states |
| Index.OutputNone | index.js:120-362 | index.js shows nothing iff the header token is missing or the scanned hemograma has Segmentados set and Linfocitos not a string |
| Index.Extract | index.js:120-362 | the callback's output is the header, the scan, the six sections and a trailing newline |
| Index01.ScanPages | index01.js:67-120 | the nested `forEach` leaves the record equal to index01.js's specified scan |
| Index01.TryNames | index01.js:69-118 | the name loop at one token is one more step of the scan for each catalog name |
| Index01.TryName | index01.js:70-78 | the callback returns on a mismatch, a negative `k - 3` or a sentinel, and otherwise stores |
| Index01.StoreValue | index01.js:80-117 | the `switch` writes the token at the name's offset into the name's field |
| Index01.UnitsAppliedThrows | index01.js:133-141 | `formatResults` throws iff Segmentados is truthy and Linfocitos is not a string |
| Index01.UnitsAppliedGet | index01.js:129-144 | otherwise it changes exactly the units of truthy values, RAN, RAL and the two percentages, and nothing else |
| Index01.FormatTwice | index01.js:129-131 | `formatResults` is not idempotent: a second call appends "0" to the white-cell count again |
| Index01.ApplyUnits | index01.js:129-144 | the unit steps mutate the record's hemograma and coagulación objects as specified |
| Index01.AppendUnit | index01.js:129 | `if (data.key) data.key += suffix` |
| Index01.DeriveCounts | index01.js:133-141 | the truthy-Segmentados block writes RAN and Segmentados, throws on a non-string Linfocitos, then writes RAL and Linfocitos |
| Index01.FormatResults | index01.js:127-171 | the result is `>date time:\n ` and the six sections joined by `"\n "`, or nothing when the units throw |
| Index01.SectionsBlank | index01.js:161-168 | a record nothing was written to prints its six sections in display order, each as `- title: ` with no items |
| Index01.OutputNone | index01.js:54-122 | index01.js shows nothing iff the header token is missing or the scanned hemograma has a truthy Segmentados and a non-string Linfocitos |
| Index01.ProcessPdf | index01.js:50-123 | the `Promise.all` callback returns the specified output for the pages |
| Drafts.IndexJsStoresUndefined | index.js:147-162 | in index.js a name read at `k - 3` and matched at token 0, 1 or 2 stores `undefined` |
| Drafts.InrEarly | index.js:147-162 | a name whose value is not read at `k - 3` still stores a real token when matched early: on the page "7.0", "x", "INR", index.js stores "7.0" for INR |
| Drafts.HemoglobinaFirst | index.js:154-162 | a page starting with "HEMOGLOBINA" sets Hb to `undefined` in index.js and leaves the record alone in index01.js |
| Drafts.Index01SkipsStart | index01.js:78 | in index01.js nothing matched among the first three tokens of a page writes anything |
| Drafts.RunsAgree | index01.js:67-119 | away from the first three tokens of a page the two scans take the same steps |
| Drafts.ScansAgree | index01.js:67-119 | when no catalog name is among the first three tokens of a page, both drafts fill the record identically |
| Drafts.BloodCountsAgree | index01.js:129-131 | the blood-count units of the two drafts agree unless a value is the empty string |
| Drafts.DifferentialAgrees | index01.js:133 | the two drafts' Segmentados tests agree unless it is the empty string |
| Drafts.HemogramaAgrees | index01.js:129-141 | when no hemograma value that gets a unit is the empty string, index.js formats the hemograma as index01.js does, and throws in the same cases |
| Drafts.Untouched | index.js:326-331 | a group without TP and TTPK gets no coagulation unit |
| Drafts.Unchanged | index.js:306-325 | a group without blood-count keys or Segmentados gets no blood-count unit and no derived count |
| Drafts.CoagulationAgree | index01.js:143-144 | the coagulation units of the two drafts agree unless a value is the empty string |
| Drafts.CoagulacionAgrees | index01.js:143-144 | index.js formats the coagulación group as index01.js does |
| Drafts.OtherAgrees | index.js:303-341 | index.js's `formatSection` leaves the four groups without units unchanged, as index01.js does |
| Drafts.LinesAgree | index01.js:161-168 | when no value that gets a unit is the empty string, index.js's six lines are index01.js's six sections, and both throw in the same cases |
| Drafts.RenderingsAgree | index01.js:170 | when no value that gets a unit is the empty string, both drafts render a scanned record to the same text |
| Drafts.OutputsAgree | index01.js:37-123 | when no page has a catalog name among its first three tokens, and no value that gets a unit in the record index01.js scans is the empty string, index.js shows index01.js's text followed by a newline, and neither shows anything when the other does not |

## Left out

- The pdf.js document loading, promises and `Promise.all` (index.js:86-117,
  index01.js:41-50) are a foreign library and asynchronous. The pages are a
  given `seq<seq<string>>`.
- index.js runs its extraction once per page as pages arrive, on a shared,
  growing `textArray` (index.js:98-117). The model runs it once over the
  complete page list; the order in which pages arrive is not modelled.
- DOM access, `FileReader`, drag and drop, `select()` and `console.log` are
  user interface and I/O. `Index.Extract` and `Index01.ProcessPdf` return the
  text that would be shown.
- `Date` parsing, `setHours` and `toLocaleDateString('en-GB')` depend on the
  date library and locale. The rendered date is the parameter `renderDate`,
  applied to the date and time strings. The reassignment of `labDia.fecha`
  to a `Date` is therefore not modelled.
- Drafts.RenderingsAgree and Drafts.OutputsAgree hold for one shared
  `renderDate`. The drafts parse the hour differently: index.js calls
  `parseInt(hours, 10)` (index.js:134), and index01.js calls `parseInt(hours)`
  with no radix (index01.js:63). They can disagree on an hour token such as
  `"0x"`, where the radix-less call reads a hexadecimal prefix. The two
  lemmas do not cover that difference.
- The numeric values of RAN and RAL involve coercion of strings to numbers,
  floating-point arithmetic and `toFixed(3)`. They are the parameter `derive`,
  applied to the white-cell value and the percentage without its first `*`.
  The model states which fields are written and from what, not the number.
- The blood-gas cases of index.js's `switch` (index.js:187-201) are left out:
  no catalog name reaches them, and `labDia.gases` does not exist.
- Object properties are the record's declared string keys, modelled as the
  enumeration `Lab.Field`. `Object.entries` lists them in insertion order
  because none of them is an integer-like key.
- Lab.Stamp: `substring` in JavaScript counts UTF-16 code units, while a Dafny
  string is a sequence of Unicode scalar values. The two differ only for
  characters outside the Basic Multilingual Plane, which the model does not
  distinguish; `Js.Substring` is the same.
- A thrown TypeError is `None`. The rejected promise and its `console.error`
  are not modelled.

## Findings

| source | as written | input that shows it | evidently intended | confidence | as-written member | corrected member |
|---|---|---|---|---|---|---|
| index.js:154-157 | the guard tests `page[k-3]` only against the two sentinels and then `k - 3 < page.length`, which always holds; it never tests `k - 3 >= 0` | a page whose first token is "HEMOGLOBINA": the guard passes, and Hb is set to `page[-3]`, i.e. `undefined`, which is then printed as "Hb undefined" | skip a match that has no token at `k - 3`, as index01.js:78 does | high, not executed | Drafts.IndexJsStoresUndefined | Drafts.Index01SkipsStart |
