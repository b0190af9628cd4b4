# advent-of-code-2024, modelled in Dafny

This project models the C solutions to the Advent of Code 2024 puzzles and
the containers they are built on. Each C source file of the core is one
Dafny module:

- `Arrays` is src/array.c. It holds the growable, type-tagged container of
  pointer slots. The capacity starts at 10 and doubles when an append finds
  the container full. The module also models `array_reset` and
  `array_copy`.
- `Tables` is src/table.c. A table is a fixed number of container rows.
  Every row operation checks the table pointer and the row index first.
- `AuxArrays` is src/aux.c. It is the older untyped container: byte
  elements, 2 initial slots, and EXIT_SUCCESS / EXIT_FAILURE statuses.
- `Day0` to `Day5` are src/day_0.c, day_1.c, day_2.c, day_3.c and day_5.c.
  - `Day0`: calibration values from the first and last digit of each line.
  - `Day1`: two sorted columns; the sum of distances and the similarity score.
  - `Day2`: safe reports, with and without the problem dampener.
  - `Day3`: `mul(a,b)`, `do()` and `don't()` found in corrupted memory.
  - `Day5`: the rule lines of the page-ordering puzzle, split with `strtok`.

Some modules model the C library the core relies on:

- `CText`: C strings, `isspace`, `isdigit`, `strtol`, `atoi` and `strstr`.
- `Capacity`: the doubling policy shared by both containers.
- `Slots`: NULL-or-pointer slots and `realloc`.
- `ErrorCodes`: the status codes of include/error.h.
- `Wrappers`: `Option`.

The model uses these conventions:

- **Objects the C code updates in place are Dafny classes.**
  - A container is a class with an `array` of slots, `idx` and `max`.
  - Its ghost `Contents` holds the stored elements.
  - Every state-changing method states the new `Contents`.
- **NULL pointers are `null` or `None`.**
- **Allocation failures are parameters.** Examples: `growOk` for realloc,
  `slotOk` for calloc, and `failAt` for the index of the append that finds no
  memory.
- **A file is the sequence of lines `fgets` returns.**
- **The puzzle answers are tied to reference definitions on values.**
  - Day 1 is tied to `SortSeq`, `Distance` and `Similarity`.
  - Day 2 is tied to `Stable` and `Damped`.
  - Day 3 is tied to the reference scan `Run`.
  - Day 5 is tied to `Tokens` and `Values`.
  - Lemmas prove what those definitions mean. For example:
    - the dampener's first test only saves work;
    - the containers of day 3 end out of step exactly when the failed append
      is the second or third of a multiplication;
    - a delimiter splits the token list of `strtok`.

The model also records behaviour the code has as written:

- A line without digits makes day 0 add -528.
- A report of one level is safe for part one of day 2 but never for part two.
- A blank line becomes the report `[0]`.
- day 3 accepts `mul( 2,+3)`.
- `table_copy_row` of a row onto itself empties the row, because
  `array_copy` resets its destination first.

## Model

| member | source | states |
|---|---|---|
| Capacity.GrowIsSmallest | advent-of-code-2024/src/array.c:131-141 | the capacity after growing to hold n elements is initial * 2^k, holds n, and is the smallest such |
| Capacity.Doubled | advent-of-code-2024/src/array.c:75 | a capacity doubled k times is never below the initial capacity |
| Capacity.Grow | advent-of-code-2024/src/array.c:131-141 | the capacity after the appends that hold n elements is at least the initial capacity and holds n |
| Capacity.GrowStep | advent-of-code-2024/src/array.c:131-141 | one more append doubles the tight capacity exactly when the container was full |
| Capacity.DoubledShift | advent-of-code-2024/src/array.c:75 | doubling k+1 times equals doubling the doubled capacity k times |
| Slots.Realloc | advent-of-code-2024/src/array.c:76 | realloc gives a fresh buffer of the new size whose first slots are the old ones |
| Arrays.Array.constructor | advent-of-code-2024/src/array.c:24-54 | a new container is empty, has the given element kind and 10 NULL slots, and its capacity is tight |
| Arrays.Resize | advent-of-code-2024/src/array.c:65-97 | NULL gives ERROR_NULL_POINTER; a failed realloc gives ERROR_OUT_OF_MEMORY and changes nothing; otherwise the capacity doubles, old slots are kept, new slots are NULL and the contents stay |
| Arrays.Add | advent-of-code-2024/src/array.c:120-182 | the status follows the order of the checks (resize, element kind, calloc); the element is appended exactly on SUCCESS; the capacity doubles only when it was full; tightness is preserved |
| Arrays.InUse | advent-of-code-2024/src/array.c:177 | the slots in use are non-NULL and point to the stored elements in order |
| Arrays.Reset | advent-of-code-2024/src/array.c:184-213 | NULL gives ERROR_NULL_POINTER; otherwise every slot becomes NULL, the contents are empty, and list, capacity and kind stay |
| Arrays.Copy | advent-of-code-2024/src/array.c:215-256 | NULL gives ERROR_NULL_POINTER; a kind mismatch gives ERROR_INVALID_INPUT and leaves dst unchanged; otherwise dst holds the prefix of src up to the failing append (all of src on SUCCESS), and copying onto itself empties it |
| Tables.Table.constructor | advent-of-code-2024/src/table.c:16-60 | a table of `rows` empty rows of one kind, each with its own container and list |
| Tables.Initialization | advent-of-code-2024/src/table.c:21-27 | NULL exactly when the row count is not positive; otherwise all rows are empty |
| Tables.AddElement | advent-of-code-2024/src/table.c:83-105 | NULL table or element gives ERROR_NULL_POINTER; a bad row gives ERROR_INDEX_OUT_OF_BOUNDS and no change; otherwise only that row changes, as array_add does |
| Tables.AddToRow | advent-of-code-2024/src/table.c:101 | array_add on one row changes that row alone |
| Tables.ResetRow | advent-of-code-2024/src/table.c:107-128 | the NULL and bounds errors change nothing; otherwise exactly that row becomes empty |
| Tables.CopyRow | advent-of-code-2024/src/table.c:130-152 | the NULL and bounds errors change nothing; otherwise only row dst changes and it becomes the copied prefix of row src |
| Tables.CopyBetweenRows | advent-of-code-2024/src/table.c:148 | array_copy between two rows changes row dst alone |
| AuxArrays.Array.constructor | advent-of-code-2024/src/aux.c:18-51 | a new container is empty with 2 NULL slots and tight capacity |
| AuxArrays.Resize | advent-of-code-2024/src/aux.c:53-85 | NULL or a failed realloc gives EXIT_FAILURE and changes nothing; otherwise the capacity doubles with the old slots kept and the new slots NULL |
| AuxArrays.AddStatusAsWritten | advent-of-code-2024/src/aux.c:113-149 | the reported status is EXIT_SUCCESS exactly when the element is stored or when a resize succeeded before the failed malloc |
| AuxArrays.AddStatus | advent-of-code-2024/src/aux.c:113-149 | the corrected status is EXIT_SUCCESS exactly when the element is stored |
| AuxArrays.AddAsWritten | advent-of-code-2024/src/aux.c:110-150 | array_add as written: appends a copy of the first ele_size bytes when both allocations succeed, and reports AddStatusAsWritten |
| AuxArrays.ExhibitMisreport | advent-of-code-2024/src/aux.c:122-146 | a third append whose malloc fails after a successful resize reports EXIT_SUCCESS while only two elements are stored |
| AuxArrays.Add | advent-of-code-2024/src/aux.c:110-150 | the same steps, reporting EXIT_SUCCESS exactly when the element is appended; tightness is preserved |
| CText.SkipSpaces | advent-of-code-2024/src/day_2.c:145-148 | the result is the first position at or after i that is not white space |
| CText.StrToL | advent-of-code-2024/src/day_2.c:115 | when nothing is converted, end is the start and the value is 0; otherwise end lies just after the last digit read |
| CText.DigitsValueOfNatString | advent-of-code-2024/src/day_2.c:115 | reading the digits of a rendered natural number gives the number back |
| CText.StrToLReadsDecimal | advent-of-code-2024/src/day_2.c:115 | strtol reads a decimal rendering of n, not followed by a digit, as n and stops just after it |
| CText.SkipSpacesRun | advent-of-code-2024/src/day_1.c:204 | white space before a number does not change what strtol reads, only where `end` stays when nothing is read |
| CText.Atoi | advent-of-code-2024/src/day_5.c:138 | atoi is 0 when strtol converts nothing |
| CText.AtoiReadsDecimal | advent-of-code-2024/src/day_5.c:138 | atoi reads back the decimal rendering of any n at the start of a string, whatever non-digit follows |
| CText.Find | advent-of-code-2024/src/day_3.c:122-124 | strstr gives the first occurrence at or after `from`, or -1 when there is none |
| Day0.FirstDigit | advent-of-code-2024/src/day_0.c:79-82 | the tens digit is '\0' or a decimal digit |
| Day0.LastDigit | advent-of-code-2024/src/day_0.c:79-85 | the units digit is '\0' or a decimal digit |
| Day0.Calibration | advent-of-code-2024/src/day_0.c:75-89 | a calibration value is -528 (no digit) or lies in [0, 99] |
| Day0.FirstDigitSpec | advent-of-code-2024/src/day_0.c:79-82 | the tens digit is '\0' exactly when the line has no digit, and otherwise it is the first digit |
| Day0.LastDigitSpec | advent-of-code-2024/src/day_0.c:79-85 | the units digit is '\0' exactly when the line has no digit, and otherwise it is the last digit |
| Day0.FirstDigitSnoc | advent-of-code-2024/src/day_0.c:80-82 | one more character sets the first digit only when there was none |
| Day0.DigitsStep | advent-of-code-2024/src/day_0.c:79-86 | how one more character changes the first and the last digit |
| Day0.CalibrationOfDigits | advent-of-code-2024/src/day_0.c:62-89 | a line with a digit has the value 10 * first + last, in [0, 99] |
| Day0.CalibrationWithoutDigits | advent-of-code-2024/src/day_0.c:77-89 | a line without digits has the value -528 |
| Day0.CalibrationOfOneDigit | advent-of-code-2024/src/day_0.c:68-70 | a line with a single digit d has the value 11 * d |
| Day0.FirstDigitAt | advent-of-code-2024/src/day_0.c:80-82 | a digit with no digit before it is the tens digit |
| Day0.LastDigitAt | advent-of-code-2024/src/day_0.c:83-85 | a digit with no digit after it is the units digit |
| Day0.FirstExample | advent-of-code-2024/src/day_0.c:69 | "a1b2c3d4e5f" gives 15 |
| Day0.SecondExample | advent-of-code-2024/src/day_0.c:70 | "treb7uchet" gives 77 |
| Day0.CalibrationValue | advent-of-code-2024/src/day_0.c:75-90 | the loop computes the calibration value of the line |
| Day0.TotalBounds | advent-of-code-2024/src/day_0.c:34-36 | lines whose values lie in [0, 99] sum to at most 99 per line |
| Day0.SumLines | advent-of-code-2024/src/day_0.c:27-40 | the reading loop sums the calibration values of all lines |
| Day0.Solve | advent-of-code-2024/src/day_0.c:21-60 | both parts are the same sum |
| Day1.Insert | advent-of-code-2024/src/day_1.c:133-144 | insertion into a sorted sequence is sorted and adds exactly that entry |
| Day1.SortSeq | advent-of-code-2024/src/day_1.c:123-145 | the reference ordering is sorted and a permutation of its input |
| Day1.SortedUnique | advent-of-code-2024/src/day_1.c:123-145 | two sorted sequences with the same entries are equal |
| Day1.SortedHeads | advent-of-code-2024/src/day_1.c:123-145 | two sorted sequences with the same entries start with the same entry |
| Day1.SortedPermutationIsSortSeq | advent-of-code-2024/src/day_1.c:81-82 | any sorted permutation is the reference ordering, so the sorted columns are determined by their input |
| Day1.BubbleSort | advent-of-code-2024/src/day_1.c:123-145 | the container ends sorted and is a permutation of its old contents; length, list and capacity stay; NULL or empty input is untouched |
| Day1.BubblePass | advent-of-code-2024/src/day_1.c:135-143 | one inner pass keeps the entries and moves the largest of the first i+1 entries to position i |
| Day1.SwapSlots | advent-of-code-2024/src/day_1.c:137-142 | exchanges two neighbouring entries, keeping the entries and the sorted suffix |
| Day1.SwapKeepsEntries | advent-of-code-2024/src/day_1.c:139-141 | a swap of neighbours keeps the multiset |
| Day1.Tally | advent-of-code-2024/src/day_1.c:166-182 | the scan counts at most the occurrences of num |
| Day1.TallyStep | advent-of-code-2024/src/day_1.c:170-181 | one entry of the scan is skipped, stops the scan, or is counted |
| Day1.TallyOnSorted | advent-of-code-2024/src/day_1.c:147-157 | on a sorted column, the scan counts every occurrence of a non-negative num |
| Day1.SimilarityScore | advent-of-code-2024/src/day_1.c:158-184 | 0 for a negative num, a NULL list or a non-positive size; otherwise num times the scan count |
| Day1.SimilarityOnSorted | advent-of-code-2024/src/day_1.c:93-100 | on a sorted right column, part two is each non-negative left entry times its number of occurrences |
| Day1.ScanPair | advent-of-code-2024/src/day_1.c:204-208 | a pair is read only when the first integer ends before the end of the line |
| Day1.ScanPairReadsPair | advent-of-code-2024/src/day_1.c:204-208 | a line of two integers apart by spaces, as the puzzle input writes it, is read back as exactly that pair |
| Day1.ScanPairOfOneInteger | advent-of-code-2024/src/day_1.c:204-208 | a line holding a single integer is no pair, so sscanf matches fewer than two items |
| Day1.Columns | advent-of-code-2024/src/day_1.c:64-78 | columns as long as the input exactly when every line holds two integers |
| Day1.ColumnsSnoc | advent-of-code-2024/src/day_1.c:64-78 | one more line extends both columns, or ends the read when it holds no pair |
| Day1.DistanceProperties | advent-of-code-2024/src/day_1.c:84-89 | the distance is non-negative and zero between a column and itself |
| Day1.ReadColumns | advent-of-code-2024/src/day_1.c:44-78 | succeeds exactly when every line holds two integers, and the two fresh containers then hold the columns |
| Day1.AppendPair | advent-of-code-2024/src/day_1.c:70-71 | both containers gain their entry |
| Day1.SortBoth | advent-of-code-2024/src/day_1.c:81-82 | both containers end sorted and are permutations of their old contents |
| Day1.SumDistances | advent-of-code-2024/src/day_1.c:84-91 | the loop sums the distances of equal positions |
| Day1.SumScores | advent-of-code-2024/src/day_1.c:94-102 | the loop sums the similarity scores of the left entries |
| Day1.Solve | advent-of-code-2024/src/day_1.c:21-115 | ERROR_UNKNOWN exactly when a line lacks two integers; otherwise the parts are the distance and the similarity of the sorted columns |
| Day2.Scan | advent-of-code-2024/src/day_2.c:112-149 | the scan returns SUCCESS or INVALID_INPUT, extends the levels already read, and appends at least one level per remaining character run |
| Day2.Record | advent-of-code-2024/src/day_2.c:101-153 | SUCCESS or INVALID_INPUT, except for an empty line, which keeps ERROR_UNKNOWN |
| Day2.ExtractDigits | advent-of-code-2024/src/day_2.c:100-153 | NULL record gives INVALID_INPUT; otherwise the record gains the levels the scan reads, up to a failing append, and the status is the scan's or the append's |
| Day2.Round | advent-of-code-2024/src/day_2.c:114-148 | one round appends strtol's value when the append succeeds, stops on a character that is not white space, and otherwise resumes where the scan does |
| Day2.Resume | advent-of-code-2024/src/day_2.c:126-148 | the loop always moves forward |
| Day2.AppendFails | advent-of-code-2024/src/day_2.c:117-123 | a failed append leaves the levels read so far and its error |
| Day2.ScanEnds | advent-of-code-2024/src/day_2.c:112-152 | a scan that ends with every append served is the whole outcome |
| Day2.ScanRound | advent-of-code-2024/src/day_2.c:114-148 | the scan from i equals the round at i followed by the scan from where it resumes |
| Day2.SkipWhite | advent-of-code-2024/src/day_2.c:145-148 | the trailing-space loop stops at the first non-space |
| Day2.RemoveAt | advent-of-code-2024/src/day_2.c:257-263 | deleting level k shifts the later levels down by one |
| Day2.IsStable | advent-of-code-2024/src/day_2.c:168-210 | true exactly for a NULL list, at most one level, or a report that moves in one direction by 1 to 3 at every step |
| Day2.Abs | advent-of-code-2024/src/day_2.c:185 | abs is x or -x |
| Day2.IsStableWithDamper | advent-of-code-2024/src/day_2.c:221-281 | true exactly when there are two or more levels and the report is stable, or (with memory for the buffer) stable after deleting some level |
| Day2.TryWithout | advent-of-code-2024/src/day_2.c:249-270 | one round is true exactly when the report without level idx is stable |
| Day2.StableWithoutEnd | advent-of-code-2024/src/day_2.c:232-237 | deleting the first or the last level of a stable report keeps it stable |
| Day2.DampedByDeletion | advent-of-code-2024/src/day_2.c:232-237 | the first test of the damper only saves work: with two or more levels, dampened iff some deletion is stable |
| Day2.OneLevel | advent-of-code-2024/src/day_2.c:175-177 | a one-level report is stable, yet the damper rejects it |
| Day2.DampenerCountsMore | advent-of-code-2024/src/day_2.c:67-68 | when every report has two or more levels, part two counts at least as many reports as part one, and at most all of them |
| Day2.Report | advent-of-code-2024/src/day_2.c:89-99 | a written report is a non-empty line ending in a newline |
| Day2.ScanReport | advent-of-code-2024/src/day_2.c:112-149 | the scan reads back the levels of a written report |
| Day2.ReadFirst | advent-of-code-2024/src/day_2.c:115-148 | the first round over a written report reads its first level and resumes at the next level or the end |
| Day2.ReadLevelAt | advent-of-code-2024/src/day_2.c:115-148 | strtol reads a rendered level, and the space skip passes one separator and stops at the next level |
| Day2.ReportLayout | advent-of-code-2024/src/day_2.c:89-99 | a written report is its first level, then a newline or a space and the rest, and never starts with white space |
| Day2.RecordOfReport | advent-of-code-2024/src/day_2.c:101-153 | extract_digits reads every written report back exactly |
| Day2.BlankLine | advent-of-code-2024/src/day_2.c:115-131 | a bare newline becomes the one level 0 |
| Day2.CountLine | advent-of-code-2024/src/day_2.c:58-72 | parsing succeeds exactly when the record is SUCCESS; the two tests then match Stable and Damped, and the record ends empty |
| Day2.Solve | advent-of-code-2024/src/day_2.c:23-87 | ERROR_UNKNOWN exactly when a line fails to parse; otherwise the parts count the stable and the dampened reports |
| Day3.Wrap | advent-of-code-2024/src/day_3.c:213 | the (int) cast is the value modulo 2^32 and keeps any value that fits |
| Day3.IntBytes | advent-of-code-2024/src/aux.c:142-144 | an int is four bytes in memory |
| Day3.BytesIntOfIntBytes | advent-of-code-2024/src/day_3.c:81-85 | an int copied byte by byte reads back as itself |
| Day3.IntBytesOfBytesInt | advent-of-code-2024/src/day_3.c:81-85 | every four bytes are the image of the int they read as |
| Day3.FlagBytes | advent-of-code-2024/src/day_3.c:156-159 | the four bytes copied from the bool flag read as 1 or 0 |
| Day3.Operand | advent-of-code-2024/src/day_3.c:213-228 | an accepted operand converts at least one digit and is closed by its separator |
| Day3.MatchMul | advent-of-code-2024/src/day_3.c:194-234 | an accepted instruction starts with "mul(" |
| Day3.MatchMulReadsMulText | advent-of-code-2024/src/day_3.c:194-234 | "mul(x,y)" with decimal operands of any length or sign is accepted with x and y |
| Day3.OperandReadsDecimal | advent-of-code-2024/src/day_3.c:213-228 | a decimal operand closed by its separator is read back |
| Day3.MulTextPieces | advent-of-code-2024/src/day_3.c:204-225 | where the prefix, operands and separators of an instruction text lie |
| Day3.MatchesPattern | advent-of-code-2024/src/day_3.c:194-234 | true exactly when MatchMul accepts, with the operands cast to int |
| Day3.RunKeeps | advent-of-code-2024/src/day_3.c:120-177 | scanning only appends entries |
| Day3.RunAtMul | advent-of-code-2024/src/day_3.c:147-176 | a well-formed multiplication of ints at position i records its entry with the current flag, and the scan goes on at i + 1 |
| Day3.QuietRun | advent-of-code-2024/src/day_3.c:120-144 | no instruction starts inside a multiplication of one-digit operands |
| Day3.RunOfThree | advent-of-code-2024/src/day_3.c:120-177 | three such multiplications back to back make up the rest of the line: the scan records exactly their three entries |
| Day3.ThreeMultiplications | advent-of-code-2024/src/day_3.c:120-177 | "mul(1,1)mul(2,2)mul(3,3)" records the entries (1,1), (2,2) and (3,3), all enabled |
| Day3.RunSkips | advent-of-code-2024/src/day_3.c:141-144 | positions with no instruction change nothing |
| Day3.ColumnSnoc | advent-of-code-2024/src/day_3.c:152-159 | one more entry adds its field to a container |
| Day3.StoredAllSnoc | advent-of-code-2024/src/day_3.c:152-159 | storing one more entry extends all three containers |
| Day3.PatternData.constructor | advent-of-code-2024/src/day_3.c:242-273 | three distinct empty containers and the flag set |
| Day3.Initialization | advent-of-code-2024/src/day_3.c:242-273 | NULL exactly when an allocation fails; otherwise empty containers and the flag set |
| Day3.NextMatch | advent-of-code-2024/src/day_3.c:122-144 | the nearest instruction at or after pos, or -1 when none is left |
| Day3.Dispatch | advent-of-code-2024/src/day_3.c:147-173 | the prefix tests tell the three instructions apart |
| Day3.StoreMatch | advent-of-code-2024/src/day_3.c:152-163 | the three appends run in order, stop at the failing one, and status is SUCCESS exactly when none fails |
| Day3.StoreEntry | advent-of-code-2024/src/day_3.c:152-163 | the same, with the structure's footprint kept |
| Day3.Append | advent-of-code-2024/src/day_3.c:153-159 | one int-sized append succeeds exactly when memory is there, and then appends the element |
| Day3.OutOfMemory | advent-of-code-2024/src/aux.c:122-146 | with one flag for both allocations, the append is stored exactly when the memory is there, and array_add as written reports the same status as the corrected one |
| Day3.StoreMatchAsWritten | advent-of-code-2024/src/day_3.c:152-163 | the three appends over array_add as written, every realloc succeeding: a failed multiplicand malloc on a full container is reported as success, and the multiplier and the flag are appended without the multiplicand |
| Day3.MisreportInDay3 | advent-of-code-2024/src/day_3.c:72-77 | on "mul(1,1)mul(2,2)mul(3,3)", a third multiplicand whose list grows but whose malloc fails leaves every status SUCCESS, the multiplicand at 2 elements against 3, and the length check failing |
| Day3.FindPattern | advent-of-code-2024/src/day_3.c:109-180 | NULL data does nothing; otherwise the containers end as the reference scan of the line describes, up to a failing append |
| Day3.ScanLine | advent-of-code-2024/src/day_3.c:118-177 | the loop leaves the containers as the reference scan describes |
| Day3.Visit | advent-of-code-2024/src/day_3.c:146-176 | handling one instruction is one step of the reference scan |
| Day3.Finished | advent-of-code-2024/src/day_3.c:141-144 | a scan that ends with no failed append has stored all its entries |
| Day3.Stopped | advent-of-code-2024/src/day_3.c:160-162 | a failed append leaves what the reference describes |
| Day3.AfterLines | advent-of-code-2024/src/day_3.c:67-70 | every container element is one int wide |
| Day3.WordsKept | advent-of-code-2024/src/day_3.c:152-159 | storing entries only adds int-wide elements |
| Day3.Solve | advent-of-code-2024/src/day_3.c:31-101 | OUT_OF_MEMORY when initialization fails; SUCCESS exactly when the containers end in step, with part one the sum of products and part two the sum of enabled products; otherwise ERROR_UNKNOWN |
| Day3.Sums | advent-of-code-2024/src/day_3.c:79-86 | the loop sums the products and the enabled products |
| Day3.RunAppend | advent-of-code-2024/src/day_3.c:120-177 | scanning from more entries appends the same entries |
| Day3.StoredAllAppend | advent-of-code-2024/src/day_3.c:152-159 | storing two lists of entries in turn stores their concatenation |
| Day3.AfterLinesWithoutFailure | advent-of-code-2024/src/day_3.c:67-70 | with memory everywhere the containers hold the entries of the reference scan of the whole file |
| Day3.DotOfColumns | advent-of-code-2024/src/day_3.c:79-86 | reading back the containers gives the sum of products and of enabled products |
| Day3.Answers | advent-of-code-2024/src/day_3.c:67-90 | with memory everywhere the containers are in step and the answers are the two totals of the reference scan |
| Day3.AfterLinesLast | advent-of-code-2024/src/day_3.c:67-70 | the last line acts on what the lines before it left |
| Day3.ApplyLengths | advent-of-code-2024/src/day_3.c:152-163 | a failed second or third append leaves one container a step ahead |
| Day3.LinesGap | advent-of-code-2024/src/day_3.c:72-77 | the containers differ in length by exactly the failed append's position in its multiplication |
| Day3.FailureDetected | advent-of-code-2024/src/day_3.c:72-77 | the length check detects a failed append exactly when it was the second or the third of a multiplication |
| Day3.RunEnabled | advent-of-code-2024/src/day_3.c:166-173 | without "don't()" the flag stays set and every entry is enabled |
| Day3.RunLinesEnabled | advent-of-code-2024/src/day_3.c:67-70 | the same for the whole file |
| Day3.EnabledTotalOfEnabled | advent-of-code-2024/src/day_3.c:83-85 | when every entry is enabled both totals agree |
| Day3.PartsAgreeWithoutDont | advent-of-code-2024/src/day_3.c:79-86 | a file without "don't()" gives the same answer to both parts |
| Day3.LenientOperands | advent-of-code-2024/src/day_3.c:213-228 | "mul( 2,+3)" is accepted as 2 times 3 |
| Day3.RejectsWrongSeparator | advent-of-code-2024/src/day_3.c:215-218 | "mul(4*" is rejected |
| Day3.RejectsSpaceAfterOperand | advent-of-code-2024/src/day_3.c:215-218 | "mul(2 ,4)" is rejected |
| Day3.RejectsSpacedPrefix | advent-of-code-2024/src/day_3.c:204-207 | "mul ( 2 , 4 )" is rejected |
| Day5.SkipDelims | advent-of-code-2024/src/day_5.c:134 | strtok skips at most the whole string |
| Day5.SkipDelimsSpec | advent-of-code-2024/src/day_5.c:134 | the leading run skipped holds delimiters only and stops at a non-delimiter |
| Day5.TokenEndSpec | advent-of-code-2024/src/day_5.c:134 | a token holds non-delimiters only and stops at a delimiter or the end |
| Day5.StrTok | advent-of-code-2024/src/day_5.c:134-148 | a returned token is non-empty and the saved rest is shorter |
| Day5.StrTokNone | advent-of-code-2024/src/day_5.c:136 | strtok returns NULL exactly when only delimiters are left |
| Day5.StrTokSome | advent-of-code-2024/src/day_5.c:134-148 | a token is the delimiter-free run after the leading delimiters, and the saved pointer skips the delimiter after it |
| Day5.TokensShape | advent-of-code-2024/src/day_5.c:134-149 | every token is non-empty and holds no delimiter |
| Day5.TokenCount | advent-of-code-2024/src/day_5.c:134-149 | strtok yields at most (n + 1) / 2 tokens from n characters, tokens being non-empty and apart |
| Day5.NoTokens | advent-of-code-2024/src/day_5.c:134-136 | only delimiters yield no token |
| Day5.OneToken | advent-of-code-2024/src/day_5.c:134-149 | a string without delimiters is one token |
| Day5.TokensStep | advent-of-code-2024/src/day_5.c:136-149 | one strtok call's token heads the token list |
| Day5.Split | advent-of-code-2024/src/day_5.c:134-149 | a delimiter splits the token list: tokens(a d b) = tokens(a) + tokens(b) |
| Day5.SplitAfterDelim | advent-of-code-2024/src/day_5.c:134-149 | the split when a starts with a delimiter |
| Day5.SplitAfterToken | advent-of-code-2024/src/day_5.c:134-149 | the split when a starts with a token |
| Day5.DelimitersCollapse | advent-of-code-2024/src/day_5.c:134-149 | leading, trailing and repeated delimiters add no token |
| Day5.DelimSet | advent-of-code-2024/src/day_5.c:66 | the delimiter set holds exactly the characters of the delimiter string |
| Day5.TokensNulFree | advent-of-code-2024/src/day_5.c:138 | every token is a C string that atoi can read |
| Day5.Values | advent-of-code-2024/src/day_5.c:138 | one atoi value per token, in order |
| Day5.ValuesSnoc | advent-of-code-2024/src/day_5.c:138-140 | one more token appends its atoi value |
| Day5.Extracted | advent-of-code-2024/src/day_5.c:114-153 | NULL for a NULL line or delimiter or a failed initialization; otherwise one value per token |
| Day5.ExtractDigits | advent-of-code-2024/src/day_5.c:114-153 | NULL exactly when an input is NULL, initialization fails or an append fails; otherwise a fresh TYPE_INT container holding the atoi values of the tokens |
| Day5.Advance | advent-of-code-2024/src/day_5.c:136-148 | one strtok step moves a token from the remaining tokens to the done ones |
| Day5.AppendTokens | advent-of-code-2024/src/day_5.c:134-149 | succeeds exactly when no append fails, and the container then holds the atoi value of every token |
| Day5.RuleLines | advent-of-code-2024/src/day_5.c:57-63 | the lines before the first line that is exactly "\n" |
| Day5.Reports | advent-of-code-2024/src/day_5.c:72-75 | a rule line is reported exactly when it does not split into two tokens |
| Day5.ReportAsWritten | advent-of-code-2024/src/day_5.c:72 | as written, the count check needs a non-NULL container and reports a count other than 2 |
| Day5.NullRulesReachable | advent-of-code-2024/src/day_5.c:140-146 | extract_digits returns NULL for "47\|53\n" when its first append fails |
| Day5.RuleTokens | advent-of-code-2024/src/day_5.c:66 | "47\|53\n" splits into "47" and "53\n" |
| Day5.TwoTokens | advent-of-code-2024/src/day_5.c:134-149 | two delimiter-free runs joined by a delimiter are two tokens |
| Day5.RuleValues | advent-of-code-2024/src/day_5.c:138 | atoi reads 47 and 53 from those tokens |
| Day5.RuleNotReported | advent-of-code-2024/src/day_5.c:72-79 | "47\|53\n" is not reported |
| Day5.AtoiTwoDigits | advent-of-code-2024/src/day_5.c:138 | atoi of two leading digits is their two-digit value |
| Day5.Solve | advent-of-code-2024/src/day_5.c:21-98 | OUT_OF_MEMORY when the graph or an extraction finds no memory; otherwise SUCCESS with both answers 0 and one report per rule line |
| Day5.BarDelimiter | advent-of-code-2024/src/day_5.c:66 | the delimiter "\|" is the set holding '\|' |

## Left out

- File I/O is left out: `fopen`, `fgets` and `fclose`, with their error paths (ERROR_FILE_NOT_FOUND) and the NULL filename and result checks. Each solver takes the lines `fgets` returns.
- The BUFFER_SIZE chunking of `fgets` is left out. A line longer than the buffer would arrive in pieces; the model takes each line whole.
- C int overflow in the sums and products is left out. Integers are unbounded; only the `(int)` cast of `strtol`'s result in day 3 is modelled (Day3.Wrap).
- `strtol` and `atoi` clamping is left out: the model does not clamp to LONG_MIN/LONG_MAX and does not set errno on overflow.
- CText.StrToL: the only base modelled is 10.
- `strtok` writes NUL into the line. The model keeps the rest of the line, which is what strtok's saved pointer points to, and does not keep the modified line.
- The destroy functions (`array_destroy`, `table_destroy`, `patterndata_destroy`) and every `free` are left out, because memory is not reclaimed in the model.
- `array_print` and `table_print` are left out. So are `printf` and the ERROR_LOG messages, except day 5's wrong-count message, which Day5.Solve returns as `reports`.
- The graph of day 5 is left out. Its calls are commented out in the source, and `graph_initialization` is a parameter (`graphOk`).
- Day 4 and `main` are left out.
- FLOAT and DOUBLE elements are left out. Every element is an int (a char as its code). TYPE_INT_PTR stands for a kind `array_add` rejects.
- Day3.IntBytes assumes a little-endian target with 4-byte ints.
- Arrays.Array.constructor and AuxArrays.Array.constructor: the calloc failures of `array_initialization` are left out of the constructors. Only some callers model them, as parameters: Day3.Initialization and Day3.Solve (`allocOk`, patterndata_initialization), and Day5.ExtractDigits and Day5.Solve (`initOk`). Day2.IsStableWithDamper's `allocOk` is the calloc of its own buffer (src/day_2.c:240), not an initialization.
- Tables.Table.constructor: a table whose content calloc or row initialization fails is left out. `table_initialization` then returns NULL or a table without rows.
- Arrays.Reset: the `array->list == NULL` branch is left out. A container's list is never NULL before it is destroyed.
- The prototypes in include/array.h (which repeat the src/aux.c signatures) are not modelled. The model follows the definitions in src/array.c.
- Day1.Solve and Day2.Solve take every allocation as successful. The ERROR_OUT_OF_MEMORY paths of their `array_initialization` calls (src/day_1.c:44-58, src/day_2.c:46-53) and every failed append are left out. Day3.Solve and Day5.Solve model one failed append, at the position their parameters name.
- Day3.Append: day 3 runs over the corrected array_add (AuxArrays.Add), and one flag stands for both its realloc and its malloc. With one flag, the as-written and the corrected statuses agree (Day3.OutOfMemory). So the misreport of src/aux.c:122-146 does not reach Day3.StoreMatch, Day3.ScanLine, Day3.FindPattern or Day3.Solve. It is shown on day 3 only by Day3.StoreMatchAsWritten and Day3.MisreportInDay3.
- Day3.LinesGap: states the length differences over the corrected array_add. Over src/aux.c as written, a realloc that succeeds followed by a malloc that fails lets the scan go on with one container a step behind. An example is the multiplicand in Day3.MisreportInDay3. When the failed append is a multiplicand, the multiplicand then ends one element short of the multiplier, while the lemma states no gap.
- Day3.FailureDetected: holds over the corrected array_add. Over src/aux.c as written, the silent failure of a first append (a multiplicand) is detected too, by src/day_3.c:72-77 (Day3.MisreportInDay3). The lemma says a failed first append goes undetected.

## Findings

| source | as written | input that shows it | evidently intended | confidence | as-written member | corrected member |
|---|---|---|---|---|---|---|
| advent-of-code-2024/src/aux.c:122-146 | `return_status` still holds the EXIT_SUCCESS of a successful resize when the element's malloc then fails, so the call reports success | three appends to a fresh container; the third finds it full, realloc succeeds and malloc fails: EXIT_SUCCESS with two elements stored. In day 3, the line "mul(1,1)mul(2,2)mul(3,3)" with the third multiplicand failing this way ends with statuses SUCCESS and the multiplicand one short | EXIT_SUCCESS exactly when the element is stored | not executed | AuxArrays.AddAsWritten, AuxArrays.ExhibitMisreport, Day3.StoreMatchAsWritten, Day3.MisreportInDay3 | AuxArrays.Add |
| advent-of-code-2024/src/day_5.c:66-72 | `p_rules->idx` is read without checking that `extract_digits` returned a container | the rule line "47\|53\n" when the first `array_add` in `extract_digits` finds no memory: NULL is returned (lines 140-146) and dereferenced | stop with ERROR_OUT_OF_MEMORY when `extract_digits` returns NULL | not executed | Day5.ReportAsWritten, Day5.NullRulesReachable | Day5.Solve |
