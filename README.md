# Licence-plate normaliser of the car-wash record store

The repository is a small SQLite-backed record keeper for a car-wash business
(`OtoYikamaDB`). Its only decision logic is `OtoYikamaDB.format_plaka`. The
insert and update operations apply it to the plate before it is stored. This
project models that routine and proves its behaviour.

`format_plaka` first cleans the raw plate: it upper-cases it and deletes every
blank. The cleaned plate is `s`, of length `n`. It then tries three shapes in
order:

- **A**: `n` is 7, 8 or 9; two leading digits, two trailing digits, letters between. Cut as `s[..2] s[2..5] s[5..]`.
- **B**: `n` is 6 or 7; one leading digit, three trailing digits, letters between. Cut as `s[..1] s[1..4] s[4..]`.
- **C**: `n` is 9 or 10; three leading digits, three trailing digits, letters between. Cut as `s[..3] s[3..6] s[6..]`.

The first shape that matches gives the three groups joined by single blanks.
A plate that matches no shape comes back cleaned and otherwise unchanged.

Files:

- `pystr.dfy`, module `PyStr`: the Python string operations the routine uses, on ASCII. These are `upper`, `replace(" ", "")`, `isdigit` and `isalpha`. The last two are false on the empty string, as in Python.
- `database.dfy`, module `Database`: the cleaning step (`Clean`), the three shape predicates, the shape rules on a cleaned plate (`FormatCleaned`), the formatter (`FormatPlaka`, which is `FormatCleaned` after `Clean`) and the lemmas about them. The formatter does not use `self`, so it is a top-level function. Most worked examples use plates that are already upper-case and free of blanks. They are stated on `FormatCleaned`, and `CleanOfCleaned` lifts them to `FormatPlaka`, as `DocstringExamples` does for the docstring's plates.

Where the documentation and the code disagree, the model follows the code:

- The docstring (database.py:27) says `09AEU143` becomes `09 AEU 143`. The code returns `09AEU143` unchanged. Shape A requires `s[2..n-2]`, here `AEU1`, to be all letters. Shape B requires `s[1..n-3]`, here `9AEU`, to be all letters. Shape C requires `n` to be 9 or 10. `ExampleDocstringFalse` proves the code's result.
- The comment at database.py:30 says shape A takes 2 to 4 trailing digits. The code accepts exactly two, because the character before them lies in the all-letter middle (`ShapeATakesTwoTrailingDigits`).
- The comments that label the branches name plates that never reach them. The plates at database.py:42 (`09AEU1434`), :45 (`09AEU14345`), :61 (`2ABC3334`) and :77 (`323ABB3444`) each match no shape and come back unchanged (`BranchCommentPlatesUnchanged`). The plates at :39 (`09AEU143`) and :58 (`2ABC333`) are one character longer than their branch: the first matches no shape (`ExampleDocstringFalse`), the second is taken by the seven-character branch (`ExampleShapeB`).
- The cut points are fixed and do not follow the length of the letter run. Extra letters move into the last group (`LettersSpillIntoLastGroup`). Shape B on six characters moves a digit into the middle group (`ShapeBShortMiddleHoldsDigit`). Both are modelled as the code does them.

## Model

| member | source | states |
|---|---|---|
| PyStr.IsDigit | database.py:33 | `c.isdigit()` holds exactly when the decimal value `c - '0'` is between 0 and 9 |
| PyStr.IsAlpha | database.py:38 | a character for which `c.isalpha()` holds is neither a digit nor a blank |
| PyStr.AllDigits | database.py:33 | `s.isdigit()` holds exactly when `s` is non-empty and every character is a digit; such a string is never `isalpha()` |
| PyStr.AllAlpha | database.py:38 | `s.isalpha()` holds exactly when `s` is non-empty and every character is a letter; such a string has no blank |
| PyStr.ToUpper | database.py:28 | `c.upper()` moves `a`-`z` down by 32 to an upper-case letter and leaves every other character alone; it keeps digits, letters and blanks in their class and never returns a lower-case letter |
| PyStr.Upper | database.py:28 | `upper()` keeps the length and maps each character through the ASCII upper-case map |
| PyStr.ExampleUpper | database.py:28 | `"09aeu143".upper()` is `"09AEU143"` |
| PyStr.UpperFixesUpper | database.py:28 | the result of `upper()` is upper-case, and `upper()` leaves a string unchanged exactly when it is already upper-case |
| PyStr.RemoveSpaces | database.py:28 | `replace(" ", "")` leaves no blank, never lengthens, and is the identity on blank-free strings |
| PyStr.RemoveSpacesConcat | database.py:28 | deleting blanks distributes over concatenation |
| PyStr.UpperConcat | database.py:28 | upper-casing distributes over concatenation |
| PyStr.UpperRemoveSpacesCommute | database.py:28 | upper-casing and deleting blanks commute |
| Database.Spaced | database.py:41 | the f-string `f"{a} {b} {c}"` puts blanks at positions `|a|` and `|a|+1+|b|` and keeps the three groups intact between them |
| Database.Clean | database.py:28 | the cleaned plate has no blank and is upper-case |
| Database.CleanIdempotent | database.py:28 | cleaning a cleaned plate changes nothing |
| Database.CleanOfCleaned | database.py:28 | an upper-case blank-free plate is its own cleaned form |
| Database.MatchesA | database.py:31-47 | the guards of shape A hold exactly when the length is 7, 8 or 9, the first two and last two characters are digits and every other character is a letter |
| Database.MatchesB | database.py:50-63 | the guards of shape B hold exactly when the length is 6 or 7, the first character and the last three are digits and every other character is a letter |
| Database.MatchesC | database.py:66-79 | the guards of shape C hold exactly when the length is 9 or 10, the first three and last three characters are digits and every other character is a letter |
| Database.FormatCleaned | database.py:31-81 | on a cleaned plate, the result is the plate itself, or the plate cut after `k` characters and three characters later, for some `k` in 1..3 |
| Database.Layout | database.py:41-79 | a plate cut after `k` and `k+3` characters is two characters longer and has blanks exactly at the cuts |
| Database.FormatPlaka | database.py:26-81 | the result is the cleaned plate, or that plate cut after `k` characters and three characters later, for some `k` in 1..3; the middle group always has exactly three characters |
| Database.SpacedRoundTrip | database.py:41-79 | deleting the blanks of `f"{a} {b} {c}"` gives `a + b + c` when the groups have no blank |
| Database.LayoutRoundTrip | database.py:41-79 | deleting the two blanks of a cut plate gives back the plate |
| Database.LayoutUpper | database.py:41-79 | cutting an upper-case plate keeps it upper-case |
| Database.ShapesDisjoint | database.py:31-79 | no two shapes match the same plate, so their priority order never changes the result |
| Database.ShapeA | database.py:31-47 | on a cleaned plate, the result is the 2:5 cut exactly when shape A matches |
| Database.ShapeB | database.py:50-63 | on a cleaned plate, the result is the 1:4 cut exactly when shape B matches |
| Database.ShapeC | database.py:66-79 | on a cleaned plate, the result is the 3:6 cut exactly when shape C matches |
| Database.FallThrough | database.py:81 | on a cleaned plate, the result is the plate unchanged exactly when no shape matches |
| Database.ShortPlateUnchanged | database.py:31-81 | a plate whose cleaned form has fewer than six characters is returned cleaned |
| Database.ShapeATakesTwoTrailingDigits | database.py:35-38 | in a shape-A plate the character before the last two is a letter, so three or four trailing digits never match |
| Database.LettersSpillIntoLastGroup | database.py:31-79 | with four or more letters in shape A, or four in shape C, the fourth letter opens the last group |
| Database.ShapeBShortMiddleHoldsDigit | database.py:59-60 | a six-character shape-B plate has a digit as the last character of its middle group |
| Database.CaseInsensitive | database.py:28 | formatting the upper-cased input gives the same result |
| Database.SpaceInsensitive | database.py:28 | formatting the input with its blanks deleted gives the same result |
| Database.RoundTrip | database.py:28-81 | deleting the blanks of the result gives the cleaned plate; the result has the cleaned length or two more |
| Database.Idempotent | database.py:28-81 | formatting a formatted plate changes nothing |
| Database.NoBlankInShape | database.py:31-79 | a plate that matches a shape is made of digits and letters, so it has no blank |
| Database.CleanPlateShapeA | database.py:28-47 | an upper-case plate of shape A is returned cut 2:5 |
| Database.CleanPlateShapeB | database.py:28-63 | an upper-case plate of shape B is returned cut 1:4 |
| Database.CleanPlateShapeC | database.py:28-79 | an upper-case plate of shape C is returned cut 3:6 |
| Database.CleanPlateNoShape | database.py:28-81 | an upper-case blank-free plate of no shape is returned as it is |
| Database.DocstringPlateMatchesB | database.py:27 | `2ABC333` has shape B |
| Database.ExampleShapeB | database.py:62-63 | the shape rules cut `2ABC333` as `2 ABC 333` |
| Database.DocstringPlateMatchesC | database.py:27 | `323ABB344` has shape C |
| Database.ExampleShapeC | database.py:75-76 | the shape rules cut `323ABB344` as `323 ABB 344` |
| Database.DocstringPlatesClean | database.py:27-28 | the docstring's plates `2ABC333` and `323ABB344` are their own cleaned form |
| Database.DocstringExamples | database.py:27 | `format_plaka` turns `2ABC333` into `2 ABC 333` and `323ABB344` into `323 ABB 344`, as the docstring says |
| Database.ExampleDocstringFalse | database.py:27 | `09AEU143` comes back unchanged, not as the docstring claims |
| Database.ExampleLowerCase | database.py:28 | `09aeu143` gives the same result as `09AEU143` |
| Database.LongLettersMatchA | database.py:31-38 | `09ABCD12` has shape A |
| Database.ExampleShapeALongLetters | database.py:43-44 | the shape rules cut `09ABCD12` as `09 ABC D12` |
| Database.ShortPlateMatchesB | database.py:50-57 | `2AB333` has shape B |
| Database.ExampleShapeBShort | database.py:59-60 | the shape rules cut `2AB333` as `2 AB3 33` |
| Database.LongLettersMatchC | database.py:66-73 | `323ABCD344` has shape C |
| Database.ExampleShapeCLongLetters | database.py:78-79 | the shape rules cut `323ABCD344` as `323 ABC D344` |
| Database.ExamplesUnchanged | database.py:81 | `AB` and `12345` come back unchanged |
| Database.BranchCommentPlatesUnchanged | database.py:42-81 | the plates `09AEU1434`, `09AEU14345`, `2ABC3334` and `323ABB3444`, named in the branch comments at lines 42, 45, 61 and 77, match no shape and come back unchanged |

## Left out

- The SQLite operations are not modelled: `init_database`, `kayit_ekle`, `kayit_guncelle`, `kayit_getir`, `plaka_ara`, `tum_kayitlar`, `gunluk_liste` and `kayit_sil` (database.py:10-24, 83-184). They are thin wrappers over SQL that runs inside the database engine. Insert and update store `format_plaka(plaka)` (database.py:88, 104). By `Database.Idempotent`, every plate stored this way is a fixed point of the formatter.
- The `except sqlite3.Error` branches print a message and return `False`, `None` or `[]`. This is I/O.
- `gunluk_liste` reads the wall clock (`datetime.date.today()`). The clock is outside the model.
- `plaka_ara` builds a SQL `LIKE` pattern from the upper-cased query. Its matching is done by SQLite, so it is not modelled.
- Character classes are ASCII only. Python's `str.upper`, `isdigit` and `isalpha` follow Unicode. For example, `'ç'.upper()` is `'Ç'`, `'Ç'.isalpha()` is true, `'²'.isdigit()` is true, and `'ß'.upper()` is `"SS"`, which changes the length. Here `ToUpper` changes only `a`-`z`, and `IsDigit` and `IsAlpha` accept only `0`-`9` and `A`-`Z`/`a`-`z`.
- Only the character `' '` counts as a blank, as in `replace(" ", "")`. Tabs and other whitespace are kept.
