# PR_maker edge-list annotator, modelled in Dafny

`tools/pr_input_provider.cpp` of CuSha turns a plain-text edge list into an
annotated one for PageRank-style processing. `PR_maker` reads the input
twice.

- **Pass 1** builds a degree counter (`mapper`). For every data line it
  counts the second index. With `--undirected` it also counts the first index.
- **Pass 2** writes every data line as `first \t second \t count \n`. The
  count is the counter's value for the line's *first* index, or 0 when that
  index is absent.
- Lines whose first character is not a digit are passthrough lines. Pass 1
  ignores them and pass 2 writes them back unchanged.

The model has five modules:

- `Wrappers` holds `Option` and `Result`.
- `Decimal` holds digit runs and the decimal text that `operator<<` writes
  for a number.
- `LineParser` models `readLineIndices` and the part of `std::stoul` it uses.
  That part is: skip C-locale whitespace, accept one optional sign, convert
  the longest run of base-10 digits, and report how many characters were
  consumed.
- `AnnotationSpec` holds the passes as functions over the list of lines,
  with the lemmas about them:
  - `Tally` is the counter pass 1 builds.
  - `FirstError` is the first data line that cannot be read.
  - `Annotated` is the list of lines pass 2 writes.
- `Annotator` is the code itself:
  - the class `DegreeCounter` holds `mapper`. `AddEntry` (`addEntryF`)
    updates it in place. `InsertEntry` (`entryToFileInserter`) only reads it.
  - `CountPass` and `EmitPass` are the two `getline` loops.
  - `PRMaker` runs both passes over the same lines.

`Scenarios` checks a few concrete inputs.

The input file is a sequence of lines with their terminators already
removed, which is what `std::getline` yields. The output file is the
sequence of strings written, in order. Each string ends in `"\n"`.
Each `char` of a line stands for one byte of the file, a value below 256.
UTF-8 is not decoded. This matters because `substr(++pos)` drops exactly one
byte and `isspace` tests single bytes.

Some details of the code are easy to misread; the model follows the code:

- The second index is not read from right after the separator. `std::stoul`
  first skips any whitespace, and it accepts a `+` or `-` sign.
- A line that ends right after its first number makes `substr` throw
  `std::out_of_range`. That error is `SeparatorPastEnd`, separate from the
  no-digits error `NoDigits`.
- A data line that cannot be read stops the run during pass 1, before
  anything is written. Pass 2 never fails once pass 1 has succeeded.
- Undirected mode changes only the counting. The reverse-edge emission is
  commented out in the source (line 77) and is not modelled.

## Model

| member | source | states |
|---|---|---|
| Decimal.DigitRunIsMaximal | tools/pr_input_provider.cpp:39 | the number of digits std::stoul converts at the start of a line is a prefix of digits that cannot be extended |
| Decimal.NatToDecimal | tools/pr_input_provider.cpp:47 | the text a number is written as: nonempty, all digits, a leading '0' only for zero, one digit exactly below ten |
| Decimal.DecimalRoundTrip | tools/pr_input_provider.cpp:47 | reading the written decimal text back gives the number |
| Decimal.DecimalCanonical | tools/pr_input_provider.cpp:39 | a digit string without superfluous leading zeros is written back exactly as read, so only leading zeros of an index are lost |
| LineParser.SpaceRunIsMaximal | tools/pr_input_provider.cpp:42 | the whitespace std::stoul skips is the longest prefix of C-locale space characters |
| LineParser.StoulConsumesDigits | tools/pr_input_provider.cpp:39-42 | a successful conversion consumes at least one character, ends on a digit and stops before any further digit, so `pos` points just past the number |
| LineParser.StoulOnDigit | tools/pr_input_provider.cpp:39 | on text starting with a digit, as a data line does, std::stoul converts exactly the leading digit run |
| LineParser.DataLineFields | tools/pr_input_provider.cpp:37-43 | on a data line, the first index is the value of the leading digit run; a line ending right after it fails with SeparatorPastEnd; otherwise one character is skipped and reading succeeds exactly when std::stoul reads the rest, whose value is the second index |
| LineParser.StoulSkipsSpace | tools/pr_input_provider.cpp:42 | whitespace before the second number is skipped and counted as consumed |
| LineParser.StoulNoNumber | tools/pr_input_provider.cpp:42 | text whose first character after its whitespace and an optional `+` or `-` is not a digit (or that ends there) fails with NoDigits |
| LineParser.StoulDecimal | tools/pr_input_provider.cpp:39-42 | written decimal text followed by a non-digit is read back as the same number, consuming exactly the digits |
| AnnotationSpec.Incremented | tools/pr_input_provider.cpp:27-35 | addEntryF: the key is present afterwards with 1 if it was absent, or with its old count plus 1; no other key is added and every other key keeps its count |
| AnnotationSpec.FirstErrorIsFirst | tools/pr_input_provider.cpp:55-62 | the run fails exactly when some data line cannot be read; the failing line named is a data line whose reading gives that error, and every line before it reads |
| AnnotationSpec.EmitLineReads | tools/pr_input_provider.cpp:56-76 | pass 2 gets through a line exactly when pass 1 does, since both read it the same way |
| AnnotationSpec.CountedCount | tools/pr_input_provider.cpp:59-61 | one data line adds 1 to its second index and, when undirected, 1 to its first; so when undirected a self-loop adds 2 to its index |
| AnnotationSpec.TallyCount | tools/pr_input_provider.cpp:55-62 | after pass 1, each index's count has grown by the number of data lines with it as second field, plus, when undirected, the number with it as first field |
| AnnotationSpec.TallyKeys | tools/pr_input_provider.cpp:55-62 | pass 1 adds exactly the second fields of the data lines as keys, plus the first fields when undirected |
| AnnotationSpec.DegreesExact | tools/pr_input_provider.cpp:24-62 | starting from the empty mapper, the key set is exactly the counted fields and each value is the index's occurrence count; an absent index has a zero tally (it is in no counted field) |
| AnnotationSpec.PassthroughNotCounted | tools/pr_input_provider.cpp:56-57 | inserting a passthrough line anywhere leaves the counter pass 1 builds unchanged |
| AnnotationSpec.AnnotatedLines | tools/pr_input_provider.cpp:69-78 | pass 2 writes one line per input line, in input order, up to the first line that fails (and all lines when none fails); each is what EmitLine gives for the line at that position |
| AnnotationSpec.PassthroughKept | tools/pr_input_provider.cpp:70-72 | a passthrough line, empty ones included, is written as the line plus "\n" at its own position |
| AnnotationSpec.PassthroughOnly | tools/pr_input_provider.cpp:55-78 | an input without data lines is written back line for line, each with "\n", and the counter stays empty |
| AnnotationSpec.EntryRoundTrip | tools/pr_input_provider.cpp:47 | a written entry is itself a data line and reads back as the same two indices, the count column and the tabs being ignored |
| AnnotationSpec.EmittedCount | tools/pr_input_provider.cpp:46-47 | the count written for a data line whose first field is a equals the number of data lines whose second field is a, plus, when undirected, the number whose first field is a |
| AnnotationSpec.UndirectedOnlyChangesCounts | tools/pr_input_provider.cpp:61-77 | both modes write one line per input line, the same passthrough lines, and data lines that read back as the same edge; undirected mode adds no reversed edge |
| Annotator.DegreeCounter.constructor | tools/pr_input_provider.cpp:24 | the counter starts empty |
| Annotator.DegreeCounter.AddEntry | tools/pr_input_provider.cpp:27-35 | the mapper becomes Incremented of its old value at the key |
| Annotator.DegreeCounter.InsertEntry | tools/pr_input_provider.cpp:45-48 | the written line holds the two indices and the mapper's count for the first one, or 0 if it is absent; it reads back as the same edge; the mapper is only read |
| Annotator.CountPass | tools/pr_input_provider.cpp:55-62 | the counter becomes Tally of its old value over the lines, and the error reported is the first line that cannot be read |
| Annotator.EmitPass | tools/pr_input_provider.cpp:69-78 | the lines written are Annotated of the lines under the unchanged counter, and the error reported is the first line that cannot be read |
| Annotator.PRMaker | tools/pr_input_provider.cpp:17-80 | a failing data line stops the run with nothing written; otherwise one line per input line: passthrough lines plus "\n", data lines as the two indices and the first index's degree |
| Scenarios.DirectedTwoEdges | tools/pr_input_provider.cpp:55-78 | "1 2", "2 3" directed: the counter is {2: 1, 3: 1} and the output is "1\t2\t0\n", "2\t3\t1\n" |
| Scenarios.UndirectedCycleCounter | tools/pr_input_provider.cpp:55-62 | "1 2", "2 1" undirected: the counter is {1: 2, 2: 2} |
| Scenarios.UndirectedCycle | tools/pr_input_provider.cpp:69-78 | "1 2", "2 1" undirected: both lines carry 2 |
| Scenarios.CommentKeptCounter | tools/pr_input_provider.cpp:55-62 | with a leading comment line, the counter holds only the edge's second index: {2: 1} |
| Scenarios.CommentKept | tools/pr_input_provider.cpp:69-78 | a leading comment line is written back unchanged, ahead of the annotated edge "1\t2\t0\n" |
| Scenarios.NoSeparator | tools/pr_input_provider.cpp:41 | "12" fails with SeparatorPastEnd |
| Scenarios.NothingAfterSeparator | tools/pr_input_provider.cpp:42 | "7 " fails with NoDigits |
| Scenarios.LooseSeparators | tools/pr_input_provider.cpp:37-43 | "3,\t 4 x" reads as (3, 4): the separator is not checked, whitespace is skipped and trailing text is ignored |
| Scenarios.TruncatedLineStopsRun | tools/pr_input_provider.cpp:55-62 | in "1 2", "12" the run stops at the second line with SeparatorPastEnd |

## Left out

- File handling is not modelled: `openFileToAccess`, opening and closing the streams, and stream I/O errors. Input and output are sequences of lines.
- The rewind (`inFile.clear()`, `seekg`) is modelled as reading the same sequence of lines a second time.
- How `std::getline` splits a file into lines is not modelled, so neither is the terminator added to a last line that had none.
- `main` is not modelled. That covers the argument scan, the default `out.txt`, the console messages, and the mapping of exceptions to exit codes. Undirected mode is a parameter.
- Multi-byte text is not decoded. A line is a sequence of bytes, each written as one `char` below 256. Read as Unicode characters, a line such as "1é2" would not match what the program does with its bytes.
- Vertex indices and counts are unbounded naturals. The model leaves out `std::out_of_range` on values beyond `unsigned long`, the truncating cast to 32-bit `unsigned int`, and counter wrap-around.
- LineParser.Stoul: a `-` sign before a non-zero value gives the error NegatedValue. `std::stoul` would instead return the value negated modulo 2^64, and the cast would then truncate it to 32 bits.
- `std::unordered_map` hashing and iteration order are not modelled. A Dafny `map` keeps only the key/value contents, which is all the program observes.
- The exception's type and message are not modelled. The exception is represented by the first failing line and its ParseError kind.
