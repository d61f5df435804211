# Mathe-Meister worksheet generator — a Dafny model

Mathe-Meister builds printable arithmetic worksheets for school children. The user picks some problem categories ("subtypes") from a fixed catalog of eleven:

- addition, subtraction and multiplication of various widths;
- long multiplication;
- division with a one- or two-digit divisor.

The user also sets the title, the page count, whether negatives are allowed and whether an answer key is printed (App.tsx:145-201). The settings also hold the whole-number-division flag and the long-multiplication widths. No control changes them, so in the app they stay `true`, 4 and 2 (App.tsx:15-21), and the remainder branch of the generator (utils/mathUtils.ts:52-56) is never reached there. The model keeps them as inputs, as the generator does. The app then fills pages of twelve problems each, and it avoids repeating a problem within a run. All pages are shown as worksheets in page order. When the answer key is on, one key sheet per page follows them, again in page order.

This project models the core of that program and proves its properties:

| module | file | what it models |
|---|---|---|
| `Types` | `types.dfy` | The records: operations, categories, settings, problems. |
| `Decimal` | `decimal.dfy` | How JavaScript writes a whole number in a template string, and powers of ten in place of `Math.pow(10, d)`. |
| `MathUtils` | `mathutils.dfy` | `generateProblem`, the problem generator, as a pure function of the category, the options and the random draws. |
| `Catalog` | `constants.dfy` | The `SUBTYPES` catalog and the facts the generator relies on. |
| `Pages` | `pages.dfy` | The page list a run produces, and its flattening into generation order. |
| `App` | `app.dfy` | Details below. |
| `Worksheet` | `worksheet.dfy` | The sheet text: operator symbols, the one-line problem, the answer label, header and corner labels, problem numbering, and the order of worksheets and key sheets. |
| `Seqs` | `seqs.dfy` | Generic sequence facts used by the proofs. |

`App` holds four things:

- **`generate`, the page assembler.** It is an imperative method with the source's loops:
  - the page loop (`FillPages`);
  - the slot loop (`FillPage`);
  - the `do … while` retry loop (`GenerateSlot`).

  A run-wide set of signature strings grows as problems are accepted.
- **`toggleSubtype`.**
- **`hasDivisionSelected`.**
- **The PDF file name.**

Randomness is a parameter:

- Every `range(min, max)` call consumes one natural-number draw `roll` and yields `min + roll % (max - min + 1)`.
- The assembler receives two oracles, both indexed by the number of the generator call:
  - `pick`, which chooses the category;
  - `rolls`, which gives the generator's two draws and its opaque problem id.

The retry discipline of a run is stated by ghost out-parameters that record, for every slot:

- how many generator calls it made;
- at which call it started.

## Model

| member | source | states |
|---|---|---|
| `MathUtils.Range` | utils/mathUtils.ts:13 | `range(min, max)` yields an integer in `[min, max]` whenever `min <= max`. |
| `MathUtils.RangeReachesEveryValue` | utils/mathUtils.ts:13 | Every value of `[min, max]` is reachable by some draw. |
| `MathUtils.DrawDigits` | utils/mathUtils.ts:17-18 | `range(10^(d-1), 10^d - 1)` has exactly `d` digits, so a one-digit operand is in `[1, 9]`. |
| `MathUtils.DivisorLow` | utils/mathUtils.ts:47 | `Math.max(2, 10^(d-1))`: at least both arguments, and equal to one of them. |
| `MathUtils.DrawDivisor` | utils/mathUtils.ts:47 | The divisor lies in `[max(2, 10^(d-1)), 10^d - 1]`, so it is never 0 or 1. |
| `MathUtils.QuotientMax` | utils/mathUtils.ts:49 | `floor((10^d - 1) / n2)` is the largest quotient whose product with `n2` stays within `d` digits. |
| `MathUtils.FeasibleCanGenerate` | utils/mathUtils.ts:47-49 | A category whose quotient range is non-empty at the widest divisor never meets an empty range, whatever the draws. |
| `MathUtils.GenerateProblem` | utils/mathUtils.ts:3-69 | The problem carries the category's operation and id and the supplied id. Its answer is the true result of the operation: sum, difference, product, or `answer * num2 + remainder == num1` with `0 <= remainder < num2`. |
| `MathUtils.AdditionOperands` | utils/mathUtils.ts:16-20 | Addition operands have exactly `digitsTop` and `digitsBottom` digits, and `answer = num1 + num2`. |
| `MathUtils.SubtractionOperands` | utils/mathUtils.ts:22-27 | The operands are the two draws. Without negatives, `num1 >= num2` and the answer is `>= 0`. With negatives, the drawn order is kept. Always `answer = num1 - num2`. |
| `MathUtils.MultiplicationOperands` | utils/mathUtils.ts:29-44 | `mul_1` gives operands in `[2, 5]`. `mul_long` gives the option widths `m1`/`m2`, not the category's. Every other id gives `[2, 12]`. Always `answer = num1 * num2`. |
| `MathUtils.DivisorBounds` | utils/mathUtils.ts:47 | `2 <= num2 <= 10^digitsBottom - 1` and `num2 >= 10^(digitsBottom-1)`. |
| `MathUtils.WholeNumberDivision` | utils/mathUtils.ts:48-51 | `num1 = num2 * answer` exactly, `answer >= 2`, `num1 <= 10^digitsTop - 1`, and no remainder. |
| `MathUtils.RemainderDivision` | utils/mathUtils.ts:52-56 | `num1` has `digitsTop` digits, and `num1 = answer * num2 + remainder` with `0 <= remainder < num2`. The remainder is recorded even when it is 0, exactly when the division is exact. |
| `Decimal.Pow10` | utils/mathUtils.ts:17 | `Math.pow(10, n)` on whole exponents is a positive natural number. |
| `Decimal.DigitChar` | App.tsx:58 | A digit value prints as its decimal digit character. |
| `Decimal.NatToString` | App.tsx:58 | The decimal text of a natural number is digits only, with no leading zero. |
| `Decimal.IntToString` | App.tsx:58 | The decimal text of an integer has number characters only, and starts with `-` exactly for a negative number. |
| `Decimal.NatToStringInjective` | App.tsx:58 | Different natural numbers have different decimal texts. |
| `Decimal.NatToStringRoundTrip` | App.tsx:58 | The text of a natural number denotes it: reading its digits back gives the number. |
| `Decimal.IntToStringRoundTrip` | App.tsx:58 | The text of an integer denotes it: a minus sign then the magnitude's digits, read back to the integer. |
| `Decimal.IntToStringInjective` | App.tsx:58 | Different integers have different decimal texts. |
| `Decimal.NatToStringLength` | utils/mathUtils.ts:17-18 | A positive number has `d` decimal digits exactly when it lies in `[10^(d-1), 10^d - 1]`. |
| `Types.OperationName` | types.ts:1-6 | Each operation's string value is non-empty and made of the letters A-Z only. |
| `Types.OperationsAreFour` | types.ts:1-6 | There are exactly four operations, listed once each, and different operations have different names. |
| `Catalog.CatalogIdsDistinct` | constants.tsx:4-20 | The catalog has 11 entries with pairwise distinct ids. |
| `Catalog.CatalogDigitsPositive` | constants.tsx:6-19 | Every entry has `digitsTop >= 1` and `digitsBottom >= 1`, so no digit range is empty. |
| `Catalog.CatalogFeasible` | constants.tsx:18-19 | Every catalog entry can be generated for every draw, including whole-number division (`floor(99/9) = 11`, `floor(999/99) = 10`). Long multiplication additionally needs positive option widths. |
| `Catalog.CatalogMultiplicationIds` | constants.tsx:14-16 | The only multiplication ids are `mul_1`, `mul_2` and `mul_long`, so the generator's fallback branch (utils/mathUtils.ts:39-42) is never reached from the catalog. |
| `Catalog.CatalogDivisionPrefix` | constants.tsx:18-19 | An id starts with `div_` exactly when its entry is a division. |
| `Pages.FlattenLength` | App.tsx:8 | A run of full pages has 12 problems per page. |
| `Pages.FlattenAt` | App.tsx:42-64 | Slot `i` of page `q` is problem `q * 12 + i` of the run. |
| `App.ActiveSubtypes` | App.tsx:40 | The active categories are exactly the catalog entries whose id is enabled. |
| `App.ActiveSubtypesConcat` | App.tsx:40 | The filter keeps catalog order: filtering two concatenated lists is concatenating their filters. |
| `App.OptionsOf` | App.tsx:49-56 | The generator options are the settings' flags, and `m1`/`m2` are the long-multiplication multiplicand and multiplier digits. |
| `App.ActiveSubtypesUsable` | App.tsx:40 | With catalog ids enabled, the active list is non-empty and every active category is feasible. |
| `App.Signature` | App.tsx:58 | The signature `${num1}${operation}${num2}` starts with the text of `num1`, ends with the text of `num2`, and has the operation name in between. |
| `App.SignaturesOf` | App.tsx:60 | The run's Set of signatures has at most one entry per accepted problem. |
| `App.SignatureInjective` | App.tsx:58 | Two problems have the same signature `${num1}${operation}${num2}` exactly when they have the same (num1, operation, num2). This holds for negative operands too. |
| `App.SignatureParts` | App.tsx:58 | A signature splits back into number text, operation name and number text. |
| `App.TriplesOfMembers` | App.tsx:60 | A triple was accepted exactly when some accepted problem has it. |
| `App.SeenSignature` | App.tsx:58-60 | The run's signature set holds a problem's signature exactly when a problem with its triple was accepted. |
| `App.SignaturesMatchTriples` | App.tsx:38 | The signature set and the accepted triples describe the same problems. |
| `App.PickAndGenerate` | App.tsx:48-56 | One retry pass returns a correct problem of the category that the pick chose. |
| `App.Candidates` | App.tsx:47-56 | Every pass of the `do` body yields a correct problem of the category picked for that call. |
| `App.AppendSlot` | App.tsx:44-61 | Accepting one more slot that obeys the retry discipline extends a run that obeys it. |
| `App.SlotOf` | App.tsx:44-61 | In a disciplined run, slot `k` made 1 to 30 calls, starting where slot `k-1` stopped. Every rejected call repeated an earlier triple, and the accepted one is new unless the cap was reached. |
| `App.NoDuplicatesBelowCap` | App.tsx:58-60 | When no slot reached 30 attempts, no two problems of the run share (num1, operation, num2). |
| `App.RetriesOnlyOnDuplicates` | App.tsx:58 | Every rejected generator call of slot `k` produced the triple of a problem accepted before slot `k`. |
| `App.AcceptedAreGenerated` | App.tsx:47-61 | Every accepted problem is correct and belongs to an active category. |
| `App.GenerateSlot` | App.tsx:45-58 | The `do … while` makes 1 to 30 consecutive generator calls and accepts the last. It retries only on a signature already seen, and it accepts a seen one only at the cap. |
| `App.AlreadySeen` | App.tsx:58 | `seenGlobal.has(signature)` is true exactly for a triple already accepted. |
| `App.FillPage` | App.tsx:43-63 | One page has exactly 12 slots and continues the run's retry discipline. The signature set becomes the signatures of everything accepted. |
| `App.FillPages` | App.tsx:37-64 | There are exactly `pageCount` pages (none for a non-positive count), each of 12 problems, and the whole run obeys the retry discipline in generation order. |
| `App.Generate` | App.tsx:31-67 | An empty selection raises the alert and leaves the pages unchanged. Otherwise the result is `pageCount` full pages of correct problems from enabled categories. The run obeys the retry discipline, and it has no duplicate triples when no slot hit the cap. |
| `App.RemoveAll` | App.tsx:73 | `filter(i => i !== id)` keeps every other id, removes `id`, and adds no duplicates. |
| `App.RemoveAllAbsent` | App.tsx:73 | Filtering out an absent id changes nothing. |
| `App.RemoveAllAppendSelf` | App.tsx:73-74 | Filtering out an id that was just appended gives the filtered list back. |
| `App.ToggleSubtype` | App.tsx:69-76 | The toggled id's membership is flipped, other ids are unaffected, and no duplicates are introduced. |
| `App.ToggleTwiceRestores` | App.tsx:69-76 | Toggling an absent id twice restores the exact list. |
| `Catalog.StartsWith` | App.tsx:28 | `startsWith` holds exactly when the string begins with the prefix's characters, in order. |
| `App.HasDivisionSelected` | App.tsx:27-29 | `some(id => id.startsWith('div_'))` is true exactly when some enabled id starts with `div_`. |
| `App.HasDivisionSelectedMeansDivision` | App.tsx:27-29 | For catalog ids, the `div_` prefix test is true exactly when an enabled category is a division. |
| `App.IsWhitespace` | App.tsx:107 | The `\s` class contains space, tab, newline and carriage return, and never `_`, an upper-case letter, a digit or `-`. |
| `App.DropWhitespace` | App.tsx:107 | Dropping a leading white-space run leaves a string that does not start with white space. |
| `App.CollapseWhitespace` | App.tsx:107 | `replace(/\s+/g, '_')` leaves no white space and empties only the empty string. |
| `App.DropWhitespaceAppend` | App.tsx:107 | Dropping leading white space stops before a following non-space. |
| `App.CollapseSplitsAt` | App.tsx:107 | A non-white-space character is kept in place, and the replacement works on each side of it separately. |
| `App.CollapseSplitsAfterWhitespace` | App.tsx:107 | Same as `CollapseSplitsAt`, for a left part that starts with white space. |
| `App.CollapseSplitsAfterPlain` | App.tsx:107 | Same as `CollapseSplitsAt`, for a left part that starts with a plain character. |
| `App.WhitespaceRunCollapses` | App.tsx:107 | A non-empty all-white-space run becomes exactly one `_`. |
| `App.DropWhitespaceAll` | App.tsx:107 | An all-white-space string is dropped entirely. |
| `App.CollapseKeepsPlainText` | App.tsx:107 | A title without white space is used unchanged. |
| `App.PdfFilename` | App.tsx:107 | The name starts `Mathe_Meister_` and ends `.pdf`. The middle has no white space. It is `Arbeitsblatt` exactly for an empty title, and otherwise the title with each white-space run replaced by `_`. |
| `Worksheet.Symbol` | components/Worksheet.tsx:43-51 | Each operator symbol is one non-space character. |
| `Worksheet.SymbolInjective` | components/Worksheet.tsx:43-51 | The four operations print four different symbols. |
| `Worksheet.FormatProblemInline` | components/Worksheet.tsx:53-56 | The line is the text of `num1`, a space, the symbol, a space, then the text of `num2`. |
| `Worksheet.FormatProblemInlineInjective` | components/Worksheet.tsx:53-56 | Two problems print the same line exactly when they have the same (num1, operation, num2). |
| `Worksheet.InlineParts` | components/Worksheet.tsx:55 | A one-line problem splits back into its number, symbol and number. |
| `Worksheet.AnswerText` | components/Worksheet.tsx:104 | A numeric answer prints as non-empty number text. |
| `Worksheet.ShownRemainder` | components/Worksheet.tsx:104 | The shown remainder is the problem's own: it is shown exactly when it is present and non-zero. |
| `Worksheet.AnswerLabel` | components/Worksheet.tsx:104 | The label starts with the answer, and it is longer exactly when a non-zero remainder is present. |
| `Worksheet.RemainderSuffix` | components/Worksheet.tsx:104 | The suffix is empty exactly when no non-zero remainder is present, and otherwise starts with a space. |
| `Worksheet.AnswerLabelHidesZeroRemainder` | components/Worksheet.tsx:104 | A missing or zero remainder is labelled with the answer alone. |
| `Worksheet.AnswerLabelShowsRemainder` | components/Worksheet.tsx:104 | A present non-zero remainder `r` is printed as the answer followed by ` R` and `r`. |
| `Worksheet.AnswerLabelReadsBack` | components/Worksheet.tsx:104 | Two numeric labels are equal exactly when the answers and the shown remainders are equal. |
| `Worksheet.HeaderTitle` | components/Worksheet.tsx:72-74 | An answer key shows `Lösungen: <title>`, or `Lösungsschlüssel` without a title. A worksheet shows its title, or `Matheübung` without one. |
| `Worksheet.KeyHeaderDiffers` | components/Worksheet.tsx:72-74 | An answer key's header never equals its worksheet's. |
| `Worksheet.CornerLabel` | components/Worksheet.tsx:91 | The corner shows `Lösungsblatt` on answer keys and `Seite <pageNumber>` otherwise. |
| `Worksheet.CornerLabelsDistinct` | components/Worksheet.tsx:91 | Two corner labels are equal exactly when both are keys, or both are worksheets of the same page. |
| `Worksheet.ProblemIndex` | components/Worksheet.tsx:113 | Page `p` covers indices `[(p-1)*12, p*12)`. |
| `Worksheet.WorksheetNumber` | components/ProblemRenderer.tsx:26 | The printed number, `index + 1`, is at least 1. |
| `Worksheet.ProblemIndexIsRunPosition` | components/Worksheet.tsx:113 | Slot `i` of page `q+1` gets the position of its problem in the run, so numbering is consecutive across pages. |
| `Worksheet.ProblemIndexInjective` | components/Worksheet.tsx:113 | Two slots share an index exactly when they are the same slot of the same page. |
| `Worksheet.AnswerKeyNumberAsWritten` | components/Worksheet.tsx:102 | As written, key entries are numbered 1 to 12 on every key sheet. |
| `Worksheet.AnswerKeyNumberingDiverges` | components/Worksheet.tsx:102 | From the second page on, a key entry's number differs from the worksheet number of the problem it answers (`1)` vs 13). |
| `Worksheet.AnswerKeyNumber` | components/Worksheet.tsx:102 | Corrected: a key entry carries its worksheet problem's number (defined as `WorksheetNumber`), which is at least 1. |
| `Worksheet.AnswerKeyNumberIsRunPosition` | components/Worksheet.tsx:102 | With the corrected numbering, key entry `i` of sheet `q+1` is numbered by its problem's position in the run. |
| `Worksheet.Sheets` | App.tsx:253-265 | One worksheet per page, numbered from 1, then (with the answer key on) one key sheet per page in the same order. |
| `Worksheet.SheetRun` | App.tsx:255-259 | Sheet `q` shows page `q` with page number `q + 1`. |
| `Worksheet.WorksheetsCoverRun` | App.tsx:255-259 | Problem `k` of the run is on worksheet `k / 12`, at slot `k % 12`, with index `k`. |

### Proof helpers

These members model no line of the program; the proofs above use them.

- `MathUtils.QuotientAtLeastTwo`: If `2 * widest <= top`, every divisor up to `widest` leaves a quotient of at least 2.
- `MathUtils.MultiplyMonotone`: Multiplying by a non-negative factor keeps order (used for the dividend bound).
- `MathUtils.ExactQuotient`: When `n = d * q`, integer division gives back `q` with remainder 0.
- `MathUtils.DivMod`: `Math.floor(n1 / n2)` and `n1 % n2` recombine to `n1`, and the remainder is in `[0, n2)`.
- `Decimal.Pow10AtLeastTen`: `10^n >= 10` for `n >= 1`.
- `Decimal.RunLength`: The leading run of a character class is no longer than the string.
- `Decimal.RunLengthOfConcat`: The run of a class before a character outside it ends exactly there.
- `Decimal.SplitAtRunEnd`: Two equal concatenations, each a run of a class followed by a character outside it, split at the same place.
- `Pages.FlattenAppend`: Pushing a page appends its problems to the run in generation order.
- `App.SignaturesOfAppend`: Accepting a problem adds exactly its signature, so the set only grows.
- `App.CollapsePlainHead`: A leading plain character is copied.
- `App.CollapseWhitespaceHead`: A leading white-space run becomes one `_`.
- `Catalog.CatalogIds`: the set of catalog ids, the domain the preconditions of `App.Generate` and `App.ActiveSubtypesUsable` speak of; it holds exactly the ids of the catalog entries.
- `Decimal.DecimalValue`, `Decimal.SignedDecimalValue`: reference readers of decimal text, the partners of `NatToString` and `IntToString`.
- `Seqs.TailOfConcat`, `Seqs.ConcatAssoc`, `Seqs.PrefixOfConcat`, `Seqs.PrefixOfPrefix`: generic sequence identities.

### Behaviour to note

- **Remainder 0 is stored.** The remainder of a remainder division is stored even when it is 0 (utils/mathUtils.ts:55). The sheet then hides it (components/Worksheet.tsx:104).
- **One-digit operands are never 0.** They are drawn from `[1, 9]` (utils/mathUtils.ts:17).
- **One key sheet per page.** The answer key is one key sheet per worksheet page, in page order (App.tsx:261-265).

## Left out

- **`Math.random` and the float arithmetic of `range`:** replaced by natural-number draws that the caller supplies (`Rolls`, and the `pick`/`rolls` oracles of `App.Generate`). Every value of a range is reachable (`RangeReachesEveryValue`), but the uniform distribution is not modelled.
- **The random base-36 problem id** (utils/mathUtils.ts:61): it is an opaque string supplied with the draws.
- **`Math.pow` and JavaScript number precision:** these are exact integer arithmetic. Operands here stay far below 2^53.
- **`MathUtils.GenerateProblem` with an empty whole-number quotient range:** it requires a non-empty range, because the code has no guard there (utils/mathUtils.ts:49). The catalog never hits the case (`Catalog.CatalogFeasible`). It also requires `digitsTop >= 1` and `digitsBottom >= 1` wherever a width is drawn from. With a width of 0 the code would draw from `[0.1, 0]` and produce a non-integer (utils/mathUtils.ts:17). Every caller passes a catalog entry, whose widths are positive (`Catalog.CatalogDigitsPositive`), so this requirement always holds.
- **`App.Generate` and unknown ids:** it requires the enabled ids to be catalog ids, because the UI only toggles catalog ids. With `mul_long` enabled, it also requires positive long-multiplication widths, because the widths are fixed at 4 and 2 in the app (App.tsx:18-21, and no control changes them). So the requirement holds in every state the app can reach.
- **`App.Generate` and the alert:** the `alert` call is returned as a value. `setPages` is the returned page list.
- **Structure of `App.Generate`:** the generator calls are a stream `nat -> MathProblem`. Its slot, page and run loops are split into three methods (`GenerateSlot`, `FillPage`, `FillPages`). The order and count of generator calls is unchanged.
- **`TextAnswer`:** the answer may be a string in the record type (types.ts:35), but the generator never produces one.
- **`handlePrint` and the DOM/html2pdf part of `handleDownload`** (App.tsx:78-132): browser I/O. Only the file name (App.tsx:107) is modelled.
- **UI plumbing:** React hooks, JSX layout, CSS, the zoom slider (App.tsx:222-225), and the `parseInt(...) || 1` page-count parsing (App.tsx:161). `pageCount` is an integer input.
- **The answer-key subheading** "Alle Aufgaben der Seiten 1 bis N" (components/Worksheet.tsx:84): it interpolates `settings.pageCount`, but it is not modelled.
- **`components/ProblemRenderer.tsx` layout:** only its `index + 1` number is modelled. Its lowercase ` r` remainder suffix (line 33) is shown only with `showAnswer`, which the worksheet always passes as false.
- **`App.IsWhitespace`:** the JavaScript `\s` class is listed character by character, following ECMAScript's WhiteSpace and LineTerminator sets.

## Findings

| source | as written | input that shows it | evidently intended | confidence | as-written member | corrected member |
|---|---|---|---|---|---|---|
| components/Worksheet.tsx:102 | Each key sheet numbers its entries `idx + 1`, restarting at 1 on every sheet. The worksheet shows `idx + (pageNumber - 1) * 12 + 1` (components/Worksheet.tsx:113, components/ProblemRenderer.tsx:26). | `pageNumber = 2`, `idx = 0`: the key prints `1)` for the problem printed as 13 on page 2. | The key numbers entries as the worksheet does, consistent with the key's "Alle Aufgaben der Seiten 1 bis N" subheading. | medium, not executed | `Worksheet.AnswerKeyNumberAsWritten`, `Worksheet.AnswerKeyNumberingDiverges` | `Worksheet.AnswerKeyNumber`, `Worksheet.AnswerKeyNumberIsRunPosition` |
