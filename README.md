# Advent of Code 2023 puzzle solvers, modelled in Dafny

The repository solves eleven Advent of Code 2023 puzzles. Each one is a small
program that reads a text file, parses it with a `nom` grammar and reduces it
to one integer. This project models the parsers and reductions of every day
(day01 to day11, plus the alternative day 1 solver in `src/main.rs`) and
proves what they compute. It does not model reading files or printing.

One module per source file:

- `Parsing` (parsing.dfy): the `nom` primitives the days share. These are
  `space0`, `multispace0`, `char`, `tag`, `line_ending`, `u64`, `i64`,
  `many0(i64 space0)`, plus `str::lines` and a sum over a sequence. A parser is
  a function from the text to `Parsed<T>`: `Failure`, or `Success(value, rest)`.
- `Day01` (day01.dfy) and `RootDay01` (root_day01.dfy): the two calibration
  scanners. A lemma proves the two scanners find the same values on every line.
- `Day02` and `Day02RoundTrip`: the cube-game grammar, `max_cubes` and the
  two sums. Every written game is read back as itself.
- `Day03`, `Day03Parts`, `Day03Sums`: the engine-schematic tokenizer `line`,
  `adjacent_cells`, and the part-number and gear sums.
- `Day04`: the scratch-card grammar, `wins`/`points`/`win_set` and the
  copy tally of part 2.
- `Day05` and `Day05Grammar`: the almanac's range maps, `map_seed`,
  `seed_ranges`, the two minima, and the grammar.
- `Day06`: the race-sheet parsers.
- `Day07`, `Day07Counts`, `Day07Hands`, `Day07Order`: card counting, hand
  classification, the hand grammar, `Ord for Hand`, and the ranking sum.
- `Day08`: the network grammar and the round-by-round walk of part 1.
- `Day09`: the difference tables of both parts.
- `Day10Elements`, `Day10Tokenizer`, `Day10Topology`, `Day10Walker`: the
  pipe maze. These are the pieces and their transitions, the row and column
  tokenizers, the map of pieces, and the walk along the loop.
- `Day11`: the galaxy grammar, the expansion in `parse_data`, and the
  distance sums.

Conventions used throughout:

- A Rust panic (`unwrap` on `None` or `Err`, a failed index) is modelled as
  `None`. Another outcome is used where the source has more than two
  results.
- Two loops may run forever on bad input: `build_path` in day10 and the walk
  of day08's `part01`. They take a `fuel` bound and return an `OutOfFuel`
  outcome.
- Integers are unbounded (see "Left out").
- Code that updates variables in a loop is a `method` with a loop. Its
  contract ties the result to a recursive specification function, and
  lemmas prove what the source promises about that function.

## Model

| member | source | states |
|---|---|---|
| Parsing.Space0 | day02/src/main.rs:118 | `space0` never fails; what it drops is spaces and tabs, and what it leaves does not start with one |
| Parsing.SpacesThen | day02/src/main.rs:148 | `space0` drops exactly the spaces written before a non-blank rest |
| Parsing.Multispace0 | day02/src/main.rs:118 | `multispace0` never fails; it drops blanks and line breaks only, and leaves no blank in front |
| Parsing.MultispacesThen | day05/src/main.rs:134 | `multispace0` drops exactly the blanks written before a non-blank rest |
| Parsing.Char | day02/src/main.rs:118 | `char(c)` succeeds exactly when the input starts with `c`, and consumes that one character |
| Parsing.Tag | day02/src/main.rs:118 | `tag(t)` succeeds exactly when the input starts with `t`, leaving what follows `t` |
| Parsing.LineEnding | day06/src/main.rs:100-106 | `line_ending` succeeds exactly on a leading "\n" or "\r\n", and consumes it |
| Parsing.Unsigned | day02/src/main.rs:148 | `u64` succeeds exactly on a leading digit; it reads the longest digit run as its decimal value and leaves what follows |
| Parsing.UnsignedRoundTrip | day02/src/main.rs:148 | the decimal text of every `n`, followed by a non-digit, reads back as `n` |
| Parsing.Signed | day05/src/main.rs:152 | `i64` succeeds exactly on a digit, or on a `+`/`-` followed by a digit; every success consumes input |
| Parsing.SignedRoundTrip | day05/src/main.rs:152 | the text of every integer, a minus sign for negatives, reads back as that integer |
| Parsing.IntegerList | day05/src/main.rs:151-154 | `many0(tuple((i64, space0)))` never fails and leaves a suffix of its input |
| Parsing.IntegerListRoundTrip | day06/src/main.rs:100-106 | integers written with one space after each are read back, in order, up to the line break or the end |
| Parsing.DecimalRoundTrip | day02/src/main.rs:148 | the value of the decimal text of `n` is `n` |
| Parsing.Lines | day01/src/main.rs:18-20 | `str::lines`: no line holds a line break, and the text is empty exactly when there are no lines |
| Parsing.SumOfAppend | day01/src/main.rs:18-24 | the sum over two concatenated sequences is the sum of the two sums |
| Day01.DigitValueParser | day01/src/main.rs:71-74 | `digit_value` succeeds exactly on a leading ASCII digit, gives its value (at most 9) and consumes one character |
| Day01.ValidValueMeans | day01/src/main.rs:55-69 | `valid_value` reads a leading digit as its value and a leading word "zero".."nine" as its index, consuming the word; every success is one of these two |
| Day01.WordFromFinds | day01/src/main.rs:58-67 | a word is matched only by its own branch of the `alt`, because no two words share their first two letters |
| Day01.WordRoundTrip | day01/src/main.rs:55-69 | every digit word followed by anything is read back as its value, leaving what follows |
| Day01.ValidValueProgress | day01/src/main.rs:55-74 | a success consumes at least one character and gives a value of at most 9 |
| Day01.Parser | day01/src/main.rs:31-53 | the loop outputs exactly `Values(line)`: the scan that stops after a match that consumes the rest, resumes `max(1, consumed - 1)` characters on after any other match, and moves one character on after no match. Each pass shortens `input`, so the loop ends |
| Day01.ValuesAreDigits | day01/src/main.rs:31-53 | every value the scan finds is at most 9 |
| Day01.EightTwo | day01/src/main.rs:44-45 | "eightwo" gives [8, 2]: the scan resumes on the last letter of "eight" |
| Day01.LineValueBounds | day01/src/main.rs:22-23 | a line adds between 0 and 99; it adds 0 exactly when it has no value, or when its first and last values are 0 |
| Day01.TotalBounds | day01/src/main.rs:18-24 | the printed sum lies between 0 and 99 times the number of lines |
| RootDay01.SameRecogniser | src/main.rs:48-171 | the 20-branch `valid_value` (the digit characters first, then the words "zero".."nine") gives the same result as day01's `valid_value` on every input |
| RootDay01.DigitBranches | src/main.rs:48-59 | the digit branches match exactly a leading digit, as its value; without a leading digit the word branches decide |
| RootDay01.WordBranches | src/main.rs:60-69 | the word branches are day01's word branches |
| RootDay01.Parser | src/main.rs:31-46 | the loop outputs exactly `EveryOffset(line)`, one attempt at every offset from left to right, and never more values than characters |
| RootDay01.OffsetsBounded | src/main.rs:31-46 | the scan finds at most one value per character |
| RootDay01.Overlap | src/main.rs:35-43 | a word at the front is found there, and the next value found is at the word's last letter or later, so "oneight" gives 1 and then 8 |
| RootDay01.NoValueAt | src/main.rs:48-171 | nothing is recognised where a non-digit character and the next one start no digit word |
| RootDay01.SameValues | src/main.rs:31-46 | day01's skipping scan and this every-offset scan find the same values on every line |
| RootDay01.CalibrationSum | src/main.rs:7-29 | the loop adds 10 * first + last for every line with a value and skips the others; the sum equals day01's and lies between 0 and 99 times the number of lines |
| RootDay01.SameTotal | src/main.rs:12-24 | over any lines the two solvers' sums agree |
| Day02.ColourParser | day02/src/main.rs:128-145 | `colour` succeeds exactly when the input starts with "red", "green" or "blue", gives that colour and consumes its name |
| Day02.ColourRoundTrip | day02/src/main.rs:128-145 | every colour's name reads back as that colour |
| Day02.CubeParser | day02/src/main.rs:147-151 | a cube read consumes input and starts with a digit |
| Day02.CubeSeparator | day02/src/main.rs:158-161 | `cube_separator` consumes input and starts with a digit |
| Day02.CubeSet | day02/src/main.rs:163-166 | `many0(cube_separator)` never fails and leaves a suffix of its input |
| Day02.CubeSetTerminators | day02/src/main.rs:178-184 | `many_till(cube_set_terminator, end)` leaves a suffix of its input on success |
| Day02.RecordStart | day02/src/main.rs:116-121 | `record_start` leaves a suffix of its input on success |
| Day02.GameRecord | day02/src/main.rs:123-126 | `game_record` leaves a suffix of its input on success |
| Day02.CubeSetStops | day02/src/main.rs:163-166 | `many0` reads no cube where no digit starts the input |
| Day02.CubeSetGoesOn | day02/src/main.rs:163-166 | after one cube `many0` goes on reading cubes from the rest |
| Day02.TerminatorsGoOn | day02/src/main.rs:178-184 | `many_till` keeps a set that consumed something and goes on after it |
| Day02.GameRecordOn | day02/src/main.rs:112-126 | a line whose start and sets read to the end of the line parses as that game |
| Day02RoundTrip.CubeRoundTrip | day02/src/main.rs:147-151 | a written cube ("3 blue") reads back as that cube, leaving what follows |
| Day02RoundTrip.CubeSeparatorRoundTrip | day02/src/main.rs:153-161 | `cube_separator` reads a cube, the spaces after it and a comma with its spaces: "9 green          ,   " is read whole |
| Day02RoundTrip.LastCube | day02/src/main.rs:163-166 | a cube followed by something other than a comma, a space or a digit ends its set |
| Day02RoundTrip.SetRoundTrip | day02/src/main.rs:163-166 | a set written with ", " between its cubes reads back as that set |
| Day02RoundTrip.TerminatorLeavesNextSet | day02/src/main.rs:168-176 | `cube_set_terminator` stops after the `;` and its spaces: "1 blue, 2 red;     3 green" leaves "3 green" |
| Day02RoundTrip.TerminatorAtEnd | day02/src/main.rs:173-176 | the last set reads up to the end of the input |
| Day02RoundTrip.SetsRoundTrip | day02/src/main.rs:178-184 | sets written with "; " between them read back as those sets, up to the end of the input |
| Day02RoundTrip.RecordStartRoundTrip | day02/src/main.rs:116-121 | "Game N: " reads as id `N` and leaves the sets |
| Day02RoundTrip.GameRoundTrip | day02/src/main.rs:112-126 | a game written as the puzzle writes it parses back as that game |
| Day02.MaxOfIsMax | day02/src/main.rs:80-109 | the running maximum of a colour bounds every cube of that colour, and is 0 or the count of one of them |
| Day02.MaxOfIsLeastBound | day02/src/main.rs:80-109 | a bound holds for every cube of a colour exactly when it holds for that colour's maximum |
| Day02.MaxCubes | day02/src/main.rs:80-109 | the loop over all cubes returns the three per-colour maxima, 0 for an absent colour, and every cube is within the maximum of its colour |
| Day02.PossibleMeans | day02/src/main.rs:32-40 | a game counts in part 1 exactly when no cube it shows exceeds 12 red, 13 green or 14 blue |
| Day02.WithinLimit | day02/src/main.rs:35 | one colour's maximum is within its limit exactly when every cube of that colour is |
| Day02.PowerIsSmallestBag | day02/src/main.rs:53-56 | the power is at most the product of any bag that makes the game possible |
| Day02.Part01Bounds | day02/src/main.rs:25-44 | part 1 lies between 0 and the sum of all ids |
| Day03.DataMeans | day03/src/main.rs:201-216 | `data` fails only on a letter or at the end of the input. A `.` is a blank and any other non-alphanumeric character a symbol, each one character long. A digit starts a number that takes the whole run of digits, read as its decimal value |
| Day03.Data | day03/src/main.rs:201-216 | a token read consumes input, so the `many0` of `line` ends |
| Day03.DataTakes | day03/src/main.rs:214-216 | `data` succeeds exactly on a leading non-letter, and the token it takes holds no letter |
| Day03.ScanStep | day03/src/main.rs:171-196 | one pass of the loop of `line`: when `data` fails the row panics; otherwise the token's cells or symbol come first, then the rest of the row from the column just past the token |
| Day03.Line | day03/src/main.rs:164-199 | the loop of `line` collects exactly `Scan(y, input, 0)`: `None` where `data(..).unwrap()` panics, otherwise the values and symbols of every token in order |
| Day03.LineToken | day03/src/main.rs:172-195 | one pass of the loop consumes at least one character, or the whole row panics |
| Day03.PushToken | day03/src/main.rs:175-192 | the `match data` pushes nothing for a blank, `Symbol(c, x, y)` for a symbol, and the number's cells for a number |
| Day03.PushNumber | day03/src/main.rs:182-190 | the `for new_x in x..(x + len)` loop pushes one value per column of the number, each with id `(x, y)` and the number's value |
| Day03.DataAt | day03/src/main.rs:214-216 | `data` on the row from column `x` reads the token at that column of the row, and fails exactly on a letter |
| Day03.ScanFails | day03/src/main.rs:171-172 | `line` panics exactly when the row holds a letter |
| Day03.ScanMeaning | day03/src/main.rs:164-199 | on a row without letters, `line` gives one value per digit, carrying the number of its run and identified by the run's first column, and one symbol per symbol character, both left to right |
| Day03.CellsFromMeans | day03/src/main.rs:181-190 | the values of a row are exactly its digit cells, each carrying its run's value and first column |
| Day03.NumberRun | day03/src/main.rs:181-190 | a number token covers its whole run of digits, with every cell of the run stored under the run's first cell |
| Day03Parts.AdjacentCells | day03/src/main.rs:121-140 | the two nested loops fill the eight-position array with the cells around the symbol, column by column, skipping the centre |
| Day03Parts.NeighboursMeaning | day03/src/main.rs:121-140 | the eight positions are pairwise distinct and are exactly the cells at most one step away on each axis, without the symbol's own cell |
| Day03Parts.SymbolsAndValues | day03/src/main.rs:77-105 | the loop over the rows collects every symbol and enters every covered cell in the value map; it panics when some row makes `line` panic |
| Day03Parts.CollectFails | day03/src/main.rs:81-85 | reading the schematic panics exactly when some line holds a letter |
| Day03Parts.CollectFailsLater | day03/src/main.rs:81-85 | once one row panics, the whole read panics |
| Day03Parts.CollectMeaning | day03/src/main.rs:87-102 | on a schematic without letters, the symbols are every symbol character in reading order, and the value map holds exactly the digit cells, each mapped to the number of its run and that run's first cell |
| Day03Parts.RowStore | day03/src/main.rs:91-100 | entering a row adds exactly its digit cells, each with its run's number, and leaves every other cell as it was |
| Day03Sums.Part01 | day03/src/main.rs:23-43 | the loop with one `seen_values` set over all symbols and their adjacent cells returns the sum of the first entry for each id met |
| Day03Sums.FirstSeen | day03/src/main.rs:33-38 | one more number met adds its id and value when its id is new, and changes nothing when it was seen before |
| Day03Sums.DedupMeaning | day03/src/main.rs:33-38 | the entries kept come from the input, their ids are pairwise distinct, and together they cover every id met |
| Day03Sums.HitsMeaning | day03/src/main.rs:27-31 | a number is met exactly when one of its cells is next to one of the symbols |
| Day03Sums.TouchesMeaning | day03/src/main.rs:29-31 | the numbers found around one symbol are exactly those with a cell adjacent to it |
| Day03Sums.LookUpMeaning | day03/src/main.rs:30-31 | the numbers found at a list of cells are the stored numbers of the cells that hold one |
| Day03Sums.Part01Meaning | day03/src/main.rs:23-43 | part 1 adds each distinct number touching some symbol exactly once, however many symbols or cells it touches |
| Day03Sums.MapOfMeaning | day03/src/main.rs:51-61 | a gear's `seen_values` map has one key per distinct id, holding that number's value |
| Day03Sums.GearMap | day03/src/main.rs:50-61 | the inner loop builds the map from the ids of the numbers around the symbol to their values, the first entry for an id kept |
| Day03Sums.Part02 | day03/src/main.rs:45-69 | the loop over the `*` symbols adds the product of the two values of every map that holds exactly two numbers |
| Day03Sums.PairProduct | day03/src/main.rs:63-64 | the product of the two values of a two-entry map, in either order, is that symbol's gear |
| Day03Sums.GearMeaning | day03/src/main.rs:47-65 | a `*` symbol adds something only when exactly two distinct numbers touch it, and then their product |
| Day04.NumberList | day04/src/main.rs:121-125 | `many0(tuple((u64, space0)))` never fails and leaves a suffix of its input |
| Day04.Numbers | day04/src/main.rs:121-125 | `numbers` never fails and leaves a suffix of its input |
| Day04.Separator | day04/src/main.rs:127-130 | `separator` succeeds exactly when a `|` follows the optional spaces |
| Day04.NotACard | day04/src/main.rs:97-119 | a line that does not open with "Card" is dropped |
| Day04.NumberListRoundTrip | day04/src/main.rs:121-125 | numbers written with a space after each are read back in order, up to the `|` or the end |
| Day04.CardHeadRoundTrip | day04/src/main.rs:103-108 | "Card N: " reads as id `N` and leaves the numbers |
| Day04.SeparatorRoundTrip | day04/src/main.rs:127-130 | "| " followed by the numbers is read as the separator |
| Day04.CardRoundTrip | day04/src/main.rs:97-125 | a written card reads back as its id and its two lists as sets, so repeated numbers collapse |
| Day04.WinsMeaning | day04/src/main.rs:86-88 | `wins` is bounded by both sets; it is the number of the card's numbers exactly when all of them win, and 0 exactly when the sets are disjoint |
| Day04.Points | day04/src/main.rs:79-84 | `points` is 0 exactly when there is no win |
| Day04.PointsMeaning | day04/src/main.rs:79-84 | `points` is the doubling score: 1 for the first match, doubled for every further one, that is `2^(wins - 1)` |
| Day04.ScoreIsPower | day04/src/main.rs:82 | the doubling score of `k > 0` matches is `2^(k - 1)` |
| Day04.WinSet | day04/src/main.rs:90-94 | `win_set` has one id per win |
| Day04.WinSetMeaning | day04/src/main.rs:90-94 | the ids won strictly increase and are exactly `id + 1` .. `id + wins` |
| Day04.FilterMapAppend | day04/src/main.rs:29-34 | `filter_map` over two blocks of lines is the concatenation of the two |
| Day04.Part01Append | day04/src/main.rs:25-37 | part 1 adds up block by block; a line that is not a card adds nothing |
| Day04.TallyStep | day04/src/main.rs:50-66 | one more card: its own count goes up by one, then that count is added to every id it wins |
| Day04.AddCard | day04/src/main.rs:51-65 | the body of the loop over the cards: the card's count, one more than the copies already won, is stored and then added to every id it wins |
| Day04.AddCopies | day04/src/main.rs:59-65 | the `for win_id in card.win_set()` loop adds the card's count to every id it wins, inserting absent ids |
| Day04.SumCounts | day04/src/main.rs:68 | `map.values().sum()` adds every count of the map once |
| Day04.Part02 | day04/src/main.rs:39-69 | the loop over the cards builds the copy tally and returns the sum of all its counts |
| Day04.MapSumRemove | day04/src/main.rs:68 | the sum of a map's counts does not depend on the order its keys are taken in |
| Day04.CreditSum | day04/src/main.rs:59-65 | adding `c` copies to each of `n` ids adds `n * c` to the sum |
| Day04.CreditKeys | day04/src/main.rs:59-65 | crediting keeps every id and adds the ids credited |
| Day04.TallyTotal | day04/src/main.rs:48-68 | the answer of part 2 is, card by card, one for the card itself plus its count for every id it wins |
| Day04.TallyHas | day04/src/main.rs:50-66 | the ids that hold a count are the cards' own ids and the ids they win, ids past the last card included |
| Day04.TallyPositive | day04/src/main.rs:50-66 | every count is at least one |
| Day05.NewMapValue | day05/src/main.rs:103-111 | `MapValue::new` builds a source and a destination range of the same length |
| Day05.MappedValue | day05/src/main.rs:113-119 | `mapped_value` gives a value exactly when the source range contains it |
| Day05.NewMapValueMeaning | day05/src/main.rs:103-119 | a map made by `new` moves exactly the values of `[source, source + length)`, each to `destination + (v - source)`, which lies in the destination range |
| Day05.FirstMatchMeaning | day05/src/main.rs:72 | within a section the value is left alone exactly when no map holds it; otherwise the first map that holds it moves it |
| Day05.MapSeed | day05/src/main.rs:68-79 | the loop over the sections reassigns the value section by section and returns the value after the last section |
| Day05.ApplyAppend | day05/src/main.rs:71-76 | sending a value through two blocks of sections sends it through the first block, then through the second |
| Day05.ApplyUnmatched | day05/src/main.rs:71-76 | a value that no map of any section holds comes out unchanged |
| Day05.LocationFromSlice | day05/src/main.rs:56-58 | `location_from_slice` panics exactly on no seeds; otherwise it is the location of one of the seeds, and no seed has a smaller one |
| Day05.LocationFromRange | day05/src/main.rs:60-66 | `location_from_range` panics exactly on an empty range; otherwise it is the location of one of its seeds, and no seed of the range has a smaller one |
| Day05.SeedRanges | day05/src/main.rs:81-93 | `seed_ranges` gives `len / 2` ranges, range `i` running from seed `2i` for seed `2i + 1` values; a trailing odd seed is left |
| Day05.RangesLocation | day05/src/main.rs:39-44 | the minimum over the ranges is there exactly when there is a range and none of them is empty |
| Day05.RangesLocationWitness | day05/src/main.rs:39-44 | the minimum over the ranges is the location of some seed of some range |
| Day05.RangesLocationBound | day05/src/main.rs:39-44 | no seed of any range has a smaller location than the minimum |
| Day05.RangesLocationLeast | day05/src/main.rs:39-44 | when it is there, the minimum over the ranges is the location of a seed of one of them, and no seed of any of them has a smaller one |
| Day05.RangesPanic | day05/src/main.rs:39-44 | part 2 panics exactly when there are fewer than two seeds or some range length is not positive |
| Day05.RangesLeast | day05/src/main.rs:39-44 | the minimum over the seed ranges is the least location of all seeds in them |
| Day05.Part02 | day05/src/main.rs:35-47 | part 2 is there exactly when there is a range and every range length is positive; then it is the location of a seed of some range, and no seed of any range has a smaller one |
| Day05Grammar.NameParser | day05/src/main.rs:160-162 | `take_till1(char::is_whitespace)` consumes at least one character on success |
| Day05Grammar.MapName | day05/src/main.rs:164-167 | `map_name` leaves a strict suffix of its input on success |
| Day05Grammar.MapNumbers | day05/src/main.rs:169-174 | `map_numbers` consumes input on success |
| Day05Grammar.MapNumbersList | day05/src/main.rs:176-179 | `many0(map_numbers)` leaves a suffix of its input |
| Day05Grammar.Section | day05/src/main.rs:176-179 | `map_names_and_numbers` consumes input on success |
| Day05Grammar.ParserFails | day05/src/main.rs:122-144 | the almanac parse fails exactly when the text does not open with "seeds:": everything after it is read by `many0` and `multispace0`, which never fail |
| Day05Grammar.SeedsRoundTrip | day05/src/main.rs:146-154 | a written seeds line reads back as its seeds |
| Day05Grammar.TripleRoundTrip | day05/src/main.rs:169-174 | a written map line reads back as the `MapValue` that `new` makes of its three integers |
| Day05Grammar.TriplesRoundTrip | day05/src/main.rs:176-179 | the map lines of a written section read back in order, and so does the blank line after them |
| Day05Grammar.NameRoundTrip | day05/src/main.rs:160-162 | a section name without blanks reads back up to the space after it |
| Day05Grammar.MapNameRoundTrip | day05/src/main.rs:156-167 | the name line "name map:" of a written section is read whole |
| Day05Grammar.SectionRoundTrip | day05/src/main.rs:176-179 | a written section reads back as its maps |
| Day05Grammar.SectionsRoundTrip | day05/src/main.rs:130-134 | written sections read back in order |
| Day05Grammar.AlmanacRoundTrip | day05/src/main.rs:122-144 | a written almanac reads back as its seeds and, section by section, the maps `new` makes of its map lines |
| Day06.Identifier | day06/src/main.rs:92-94 | `identifier` leaves a suffix of its input |
| Day06.IdentifierRoundTrip | day06/src/main.rs:92-94 | letters then a colon are read as the letters, the rest left |
| Day06.IdentifierFails | day06/src/main.rs:92-94 | `identifier` fails when the letters at the head are not followed by a colon |
| Day06.LineEndOrEof | day06/src/main.rs:96-98 | `line_end_or_eof` succeeds exactly at the end of the text or in front of "\n" or "\r\n" |
| Day06.Zip | day06/src/main.rs:70-73 | `zip` pairs the two lists position by position, as many races as the shorter list has |
| Day06.DataRoundTrip | day06/src/main.rs:100-106 | a written data line reads back as its integers, its line break consumed |
| Day06.SheetRoundTrip | day06/src/main.rs:84-86 | a written sheet of two data lines, whatever their names, reads back as both lists |
| Day06.Parser01RoundTrip | day06/src/main.rs:65-74 | `parser_01` reads a written sheet as its races, paired column by column |
| Day06.Parser01Fails | day06/src/main.rs:65-68 | a sheet that does not open with an identifier gives no races (`unwrap_or_else` to empty lists) |
| Day06.DigitGroups | day06/src/main.rs:108-112 | `string_numbers` gives non-empty runs of digits only and leaves a suffix |
| Day06.ConcatDigits | day06/src/main.rs:116 | `join("")` of digit runs is digits only, and empty exactly when there are no runs |
| Day06.SingleValueString | day06/src/main.rs:114-117 | the joined string holds digits only |
| Day06.DigitGroupsOn | day06/src/main.rs:108-112 | a run of digits in front is read as the first group, the rest as the groups after it |
| Day06.GroupsStart | day06/src/main.rs:108-112 | written groups open with a digit, or are only the tail |
| Day06.DigitGroupsRoundTrip | day06/src/main.rs:108-112 | written digit groups read back, in order, up to the line break |
| Day06.SingleStringRoundTrip | day06/src/main.rs:114-117 | a written single-value line reads as its digit groups joined |
| Day06.SingleValueOn | day06/src/main.rs:119-122 | `single_value_parser` panics (`unwrap`) exactly when the joined digits are empty, else gives their decimal value |
| Day06.SingleRoundTrip | day06/src/main.rs:119-122 | a written single-value line reads as one number, the digits of all its groups, or panics when it has none |
| Day06.SingleSheetRoundTrip | day06/src/main.rs:88-90 | a written two-line sheet, whatever its names, reads back as one time and one distance |
| Day06.Parser02RoundTrip | day06/src/main.rs:76-82 | `parser_02` reads a written sheet as one race whose time and distance are the digits of each line joined |
| Day06.Parser02Panics | day06/src/main.rs:119-122 | a named line with no digits makes `parser_02` panic |
| Day06.Parser02Fails | day06/src/main.rs:76-79 | a sheet that does not open with an identifier is the race `(0, 0)` |
| Day06.JoinedExample | day06/src/main.rs:114-122 | "7  15   30" is read as 71530 |
| Day07.Strength | day07/src/main.rs:74-83 | the derived order of `Class` ranks its seven variants 0 to 6 |
| Day07.Patterns | day07/src/main.rs:155-158 | the counts of five cards follow one of the seven partitions of five |
| Day07.PartitionsOfFive | day07/src/main.rs:158-206 | positive ascending counts that add up to five are one of the partitions of five the match lists |
| Day07.ClassifyTotal | day07/src/main.rs:155-208 | `classify_hand` reaches none of its panics on five cards |
| Day07.ClassifyPlain | day07/src/main.rs:155-208 | without jokers `classify_hand` gives the usual class, from the number of different cards and the largest number of equal cards |
| Day07.ClassifyCountsPlain | day07/src/main.rs:158-206 | without a joker among five cards' counts, the match gives the class of as many kinds as counts and of the largest count |
| Day07.ShapePairs | day07/src/main.rs:158-206 | the number of different cards and the largest multiplicity of five cards come in seven pairs only |
| Day07.KindClassMonotone | day07/src/main.rs:158-206 | fewer different cards and more equal cards never make a weaker class |
| Day07.NewHandMeaning | day07/src/main.rs:132-136 | `Hand::new` keeps the cards and bid and gives the usual class |
| Day07.Jokered | day07/src/main.rs:139-149 | every jack (11) is made a joker (0), every other card kept |
| Day07.NewWildcard | day07/src/main.rs:138-153 | the loop over a copy of the cards makes its jacks jokers in place; the hand keeps the cards as dealt and takes the class of the copy |
| Day07.Replace | day07/src/main.rs:142-146 | every occurrence of one card is replaced by another, the rest kept |
| Day07.WildcardMisclassifies | day07/src/main.rs:155-208 | `JJJJ2` under `new_wildcard` as written is four of a kind, though its jokers made twos are five of a kind |
| Day07.JokeredClass | day07/src/main.rs:160-164 | the jokered `JJJJ2` has counts `(1, 2), (4, 0)` and the match reads it as four of a kind |
| Day07.FourAndOneCounts | day07/src/main.rs:210-227 | four of one card and one of another give the counts `(1, other), (4, card)` |
| Day07.JokersAsTwos | day07/src/main.rs:155-159 | with the jokers made twos the hand is five of a kind |
| Day07.Best | day07/src/main.rs:155-208 | a card other than the joker, as frequent as any other such card |
| Day07.ReplaceOcc | day07/src/main.rs:142-146 | after replacing `j` by `d` there is no `j` left, `d` occurs as often as `d` and `j` did, the rest as before |
| Day07.ReplaceKinds | day07/src/main.rs:142-146 | replacing a present card removes one kind exactly when the new card was already there |
| Day07.BestKinds | day07/src/main.rs:155-208 | jokers turned into the best card leave no more kinds than turned into any other card |
| Day07.BestMost | day07/src/main.rs:155-208 | jokers turned into the best card leave no fewer equal cards than turned into any other card |
| Day07.NoJokerClass | day07/src/main.rs:155-208 | without jokers the intended wildcard class is the usual one, whatever the jokers would become |
| Day07.AllJokerClass | day07/src/main.rs:159 | five jokers are five of a kind |
| Day07.MixedJokerClass | day07/src/main.rs:155-208 | with jokers and other cards, the best card gives the strongest class |
| Day07.JokerClassBest | day07/src/main.rs:155-208 | the intended wildcard class of five cards is the class of the hand with every joker made one card, and no other card gives a stronger class |
| Day07.WildcardMeaning | day07/src/main.rs:138-153 | the intended `new_wildcard` of five cards keeps the cards and bid and takes the strongest class its jacks can make as some card |
| Day07.AllJokers | day07/src/main.rs:158-159 | five jokers are five of a kind under `classify_hand` |
| Day07Counts.Occ | day07/src/main.rs:210-219 | a card's count is at most the number of cards and positive exactly when the card is among them |
| Day07Counts.MostOf | day07/src/main.rs:210-226 | the largest multiplicity among some cards bounds all of them and is reached |
| Day07Counts.Distinct | day07/src/main.rs:210-219 | the different cards, each once |
| Day07Counts.Insert | day07/src/main.rs:225 | inserting into a sorted list keeps it sorted and adds exactly the entry |
| Day07Counts.SortedEntries | day07/src/main.rs:221-226 | the entries of distinct cards, sorted, each with its count |
| Day07Counts.CardCountsMeaning | day07/src/main.rs:210-227 | `CardCounts` is sorted and holds one entry per different card with its multiplicity |
| Day07Counts.SortedFirst | day07/src/main.rs:225 | the first entry of a sorted list is below all others |
| Day07Counts.SortedUnique | day07/src/main.rs:225 | two sorted lists with the same entries are the same list |
| Day07Counts.CountsOfUnique | day07/src/main.rs:210-227 | only one list is sorted with one entry per card and its count |
| Day07Counts.Tally | day07/src/main.rs:211-219 | the loop fills the hash map so that its keys are the cards and each value the card's count |
| Day07Counts.Collect | day07/src/main.rs:221-226 | the map's entries collected and sorted: sorted, holding exactly the `(count, card)` pairs of the map |
| Day07Counts.CountCards | day07/src/main.rs:210-227 | `card_counts` returns the one sorted list of counts of the cards |
| Day07Counts.Without | day07/src/main.rs:210-219 | removing one card loses exactly its count and keeps every other count |
| Day07Counts.CountsTotal | day07/src/main.rs:210-227 | the counts add up to the number of cards |
| Day07Counts.CountsKinds | day07/src/main.rs:158 | there are as many entries as different cards |
| Day07Counts.DistinctSize | day07/src/main.rs:210-227 | a list without repetitions has as many elements as its set |
| Day07Counts.CountsMost | day07/src/main.rs:158-206 | the last entry holds the largest multiplicity |
| Day07Counts.CountsShape | day07/src/main.rs:158-206 | every count is at least one and they do not decrease |
| Day07Hands.Digit | day07/src/main.rs:270-273 | `digit` reads exactly '2' to '9', as its value |
| Day07Hands.Face | day07/src/main.rs:260-268 | `face` reads exactly T, J, Q, K, A, as 10 to 14 |
| Day07Hands.Card | day07/src/main.rs:256-258 | `card` reads exactly the thirteen card characters, as 2 to 14 |
| Day07Hands.CardRoundTrip | day07/src/main.rs:256-273 | every card value reads back from its character |
| Day07Hands.CardCharInjective | day07/src/main.rs:256-273 | no two card values share a character |
| Day07Hands.Cards | day07/src/main.rs:246 | `many0(card)` reads card values up to the first character that is not a card |
| Day07Hands.HandRaw | day07/src/main.rs:245-254 | `hand_raw` panics exactly when the cards read are not five |
| Day07Hands.HandBid | day07/src/main.rs:240-243 | `hand_bid` panics exactly where `hand_raw` does and otherwise reads five cards |
| Day07Hands.CardsRoundTrip | day07/src/main.rs:246 | written cards read back up to the first character that is not a card |
| Day07Hands.CardsStep | day07/src/main.rs:246 | `many0` reads one card, then the rest |
| Day07Hands.HandBidRoundTrip | day07/src/main.rs:240-254 | a written line reads back as its cards and bid |
| Day07Hands.Parser01Meaning | day07/src/main.rs:230-233 | `parser01` panics exactly where `hand_raw` does; every hand it gives has five cards, no joker and the usual class |
| Day07Hands.Parser01RoundTrip | day07/src/main.rs:230-233 | a written line gives its hand with the usual class |
| Day07Hands.Parser02Meaning | day07/src/main.rs:235-238 | `parser02` panics exactly where `hand_raw` does; every hand it gives has five cards and the class `classify_hand` gives its jokered cards, which without a jack is the usual class |
| Day07Hands.Parser02RoundTrip | day07/src/main.rs:235-238 | a written line gives its hand with the cards as dealt and the class `classify_hand` gives the jokered cards; without a jack it is the hand `parser01` gives |
| Day07Hands.NoJackUnchanged | day07/src/main.rs:138-149 | cards without a jack hold no joker and are not changed by making the jacks jokers |
| Day07Hands.Parser02IntendedMeaning | day07/src/main.rs:235-238 | with the corrected wildcard class, the parser panics exactly where `hand_raw` does and every hand gets the intended class of its jokered cards |
| Day07Hands.Parser02IntendedRoundTrip | day07/src/main.rs:235-238 | with the corrected wildcard class, a written line gives the hand with its cards as dealt and the class no choice of card for its jacks beats |
| Day07Hands.ShortHandPanics | day07/src/main.rs:248-249 | fewer than five cards make both parsers panic |
| Day07Hands.MissingBidSkipped | day07/src/main.rs:230-241 | five cards with no bid make the line skipped (`ok()?`) |
| Day07Hands.ParsersGiveFive | day07/src/main.rs:230-238 | every hand either parser gives has five cards |
| Day07Hands.ReadFiveCards | day07/src/main.rs:31-35 | the hands `filter_map` collects have five cards each |
| Day07Hands.Total | day07/src/main.rs:27-72 | each part is there exactly when `filter_map` reads the lines without a panic |
| Day07Hands.ReadHands | day07/src/main.rs:31-35 | `filter_map(parser)` panics exactly when the parser panics on some line; otherwise it gives at most one hand per line, each the hand the parser gives some line |
| Day07Hands.FourJacksAsWritten | day07/src/main.rs:50-72 | `part02` as written on `JJJJ2 1` and `AAAAK 5` is 11: both hands are four of a kind and `JJJJ2` ranks first |
| Day07Hands.FourJacksAsIntended | day07/src/main.rs:50-72 | with the corrected class the same lines give 7: `JJJJ2` is five of a kind and ranks second |
| Day07Hands.RankedFirst | day07/src/main.rs:36 | the first hand of a ranking does not beat any hand in it |
| Day07Hands.SameFirst | day07/src/main.rs:36 | two rankings of the same hands with no ties start with the same hand |
| Day07Hands.SameHands | day07/src/main.rs:36 | a reordering keeps five cards and no ties |
| Day07Hands.RankedTail | day07/src/main.rs:36 | a ranking without its first hand is still a ranking without ties |
| Day07Hands.RankedUnique | day07/src/main.rs:36 | two rankings of the same hands with no ties are the same list |
| Day07Hands.TotalOfAnyRanking | day07/src/main.rs:36-47 | without ties, each part is the ranking sum of any weakest-first ordering of the hands, so the sort used does not matter |
| Day07Order.CompareCardsMeaning | day07/src/main.rs:110-120 | cards of one length compare `Equal` exactly when they are the same and `Less` exactly when the first difference is smaller |
| Day07Order.CompareCardsFlip | day07/src/main.rs:110-120 | swapping the cards reverses their comparison |
| Day07Order.CompareCardsTransitive | day07/src/main.rs:110-120 | the comparison of cards is transitive, strictly when one step is strict |
| Day07Order.CompareFlip | day07/src/main.rs:105-123 | swapping two hands reverses their comparison |
| Day07Order.CompareEqual | day07/src/main.rs:105-123 | hands compare `Equal` exactly when their classes and cards agree, whatever the bids |
| Day07Order.CompareIgnoresBid | day07/src/main.rs:105-123 | the bid plays no part in the comparison |
| Day07Order.CompareTransitive | day07/src/main.rs:105-123 | the comparison of hands is transitive, strictly when one step is strict |
| Day07Order.InsertHand | day07/src/main.rs:36 | inserting a hand keeps the list ranked and adds exactly that hand |
| Day07Order.InsertFront | day07/src/main.rs:36 | a hand beaten by the first of a ranking goes in front of it |
| Day07Order.InsertBehind | day07/src/main.rs:36 | a hand not beaten by the first goes after it, the result ranked and holding both |
| Day07Order.SortHands | day07/src/main.rs:36 | `hands.sort()` gives a ranked permutation of the hands |
| Day07Order.WinningsShift | day07/src/main.rs:38-45 | a weakest hand put in front adds its bid and raises every other bid's rank by one |
| Day07Order.WinningsBounds | day07/src/main.rs:38-45 | the ranking sum lies between the sum of the bids and that sum times the number of hands |
| Day07Order.BoundsStep | day07/src/main.rs:38-45 | one more hand of rank `n` keeps the bounds |
| Day08.ReadDirection | day08/src/main.rs:109-114 | `direction` reads exactly 'L' (as left) or 'R' (as right) |
| Day08.ReadDirections | day08/src/main.rs:105-107 | `many0(direction)` reads turns up to the first character that is not one |
| Day08.Alpha1 | day08/src/main.rs:118 | `alpha1` reads the longest run of letters, and at least one |
| Day08.Spaced | day08/src/main.rs:119-129 | optional spaces and a punctuation character consume input |
| Day08.SpacedName | day08/src/main.rs:122-127 | optional spaces and a name consume input |
| Day08.Opening | day08/src/main.rs:119-122 | ` = (` consumes input |
| Day08.Neighbours | day08/src/main.rs:123-130 | `left, right)` reads exactly when a name follows right away, then a comma, a name and `)` each after optional spaces; it consumes input and gives names |
| Day08.MapLine | day08/src/main.rs:116-140 | `map_line` fails when no name or no ` = (` starts the line, and otherwise reads exactly when the neighbours do; a line read consumes input and gives names |
| Day08.MapLines | day08/src/main.rs:98 | `many0(map_line)` leaves a suffix no longer than its input |
| Day08.ToMap | day08/src/main.rs:101 | the collected map has exactly the nodes of the lines as keys |
| Day08.ToMapLast | day08/src/main.rs:101 | a node takes the mapping of its last line |
| Day08.DirectionsRoundTrip | day08/src/main.rs:105-114 | written turns read back |
| Day08.Alpha1RoundTrip | day08/src/main.rs:118 | a name reads back up to the first character that is not a letter |
| Day08.SpacedRoundTrip | day08/src/main.rs:119-129 | spaces then the punctuation read back |
| Day08.OpeningRoundTrip | day08/src/main.rs:119-122 | ` = (` reads back |
| Day08.SpacedNameRoundTrip | day08/src/main.rs:122-127 | spaces then a name read back |
| Day08.CharRoundTrip | day08/src/main.rs:125-129 | punctuation right at the start reads back |
| Day08.NewlineThen | day08/src/main.rs:130 | `multispace0` takes the line break after a line |
| Day08.LeftHalf | day08/src/main.rs:123-125 | the left neighbour and its comma read back |
| Day08.RightHalf | day08/src/main.rs:126-129 | the right neighbour and the closing parenthesis read back |
| Day08.NeighboursRoundTrip | day08/src/main.rs:123-130 | `left, right)` and the line break read back as the mapping |
| Day08.MapLineRoundTrip | day08/src/main.rs:116-140 | a written line `AAA = (BBB, CCC)` reads back as its node and mapping |
| Day08.NetworkStart | day08/src/main.rs:116-118 | the written network opens with a letter, or is the tail that follows it |
| Day08.FirstLine | day08/src/main.rs:116-140 | the first written line reads back, leaving the lines after it and the tail |
| Day08.MapLinesOn | day08/src/main.rs:98 | `many0(map_line)` reads one line, then the rest |
| Day08.MapLinesRoundTrip | day08/src/main.rs:98 | written lines read back as their entries, up to a text that starts with no letter or is no mapping, which is left unread |
| Day08.BlankAfterParenthesis | day08/src/main.rs:116-140 | a line with a blank after `(`, `AAA = ( BBB, CCC)`, is not read by `map_line` |
| Day08.MapLinesStopAtBlank | day08/src/main.rs:98-140 | `many0(map_line)` stops at such a line: the lines before it are read, and it and everything after it are left |
| Day08.DataRoundTrip | day08/src/main.rs:89-103 | a written input reads back as its turns and the network its lines describe |
| Day08.Step | day08/src/main.rs:36-43 | one turn is there exactly when the node is in the map (`unwrap` panics otherwise) |
| Day08.Round | day08/src/main.rs:36-43 | a round with no turns stays put; one from a node missing from the map panics; one that ends does so at a neighbour of some node |
| Day08.RoundSplit | day08/src/main.rs:36-43 | a round over two lists of turns is the round over the first, then over the second |
| Day08.Part01 | day08/src/main.rs:25-50 | the `while` loop, bounded to `fuel` rounds, ends as `Travel` does |
| Day08.FirstArrivalStep | day08/src/main.rs:35-47 | a first arrival after `k + 1` rounds is a first arrival after `k` rounds from where the first round ends |
| Day08.TravelArrived | day08/src/main.rs:35-49 | an answer of `n` turns means ZZZ is first reached at the end of round `k`, and `n` is `k` times the number of turns |
| Day08.TravelArrives | day08/src/main.rs:35-49 | conversely a first arrival after `k` rounds gives the answer `k` times the number of turns |
| Day08.TravelMoreFuel | day08/src/main.rs:35-47 | a larger bound changes no outcome but running out |
| Day08.NoTurnsNeverArrive | day08/src/main.rs:35-47 | with no turns the loop never ends away from ZZZ |
| Day08.MissingNodePanics | day08/src/main.rs:37 | a start node missing from the network panics |
| Day09.ParseLineRoundTrip | day09/src/main.rs:82-89 | a written history reads back |
| Day09.AllZeroMeaning | day09/src/main.rs:41 | `all(|v| *v == 0)` holds exactly when every value is zero |
| Day09.Differences | day09/src/main.rs:42-48 | the differences have one element fewer than the values |
| Day09.DifferencesAt | day09/src/main.rs:42-48 | difference `i` is the value `i + 1` minus value `i` |
| Day09.BackDifferences | day09/src/main.rs:66-72 | the backward differences have one element fewer than the values |
| Day09.BackDifferencesAt | day09/src/main.rs:66-72 | backward difference `i` is value `i` minus value `i + 1` |
| Day09.ExtrapolateStep | day09/src/main.rs:39-51 | one level of part 1 adds the last value to the extrapolation of the differences |
| Day09.ExtrapolateBackStep | day09/src/main.rs:63-75 | one level of part 2 adds the first value to the extrapolation of the backward differences |
| Day09.NextValue | day09/src/main.rs:37-54 | the `while` loop of part 1's closure computes `Extrapolate`, `None` where `unwrap` panics |
| Day09.PreviousValue | day09/src/main.rs:61-78 | the `while` loop of part 2's closure computes `ExtrapolateBack` |
| Day09.DifferencesAppend | day09/src/main.rs:42-48 | a value appended to a history appends one difference |
| Day09.ZeroAppended | day09/src/main.rs:41 | a level of zeros stays one with a zero appended |
| Day09.ExtrapolateMeaning | day09/src/main.rs:37-54 | the next reading is the one that keeps the difference table: the level of zeros stays all zero once it is appended |
| Day09.Reverse | day09/src/main.rs:58-80 | reversal keeps the length and mirrors the positions |
| Day09.BackDifferencesReversed | day09/src/main.rs:66-72 | the `left - right` levels are the ordinary levels of the reversed history, reversed |
| Day09.ExtrapolateBackReversed | day09/src/main.rs:58-80 | part 2 on a history is part 1 on the history reversed |
| Day09.Constant | day09/src/main.rs:41 | a history of `n` equal readings |
| Day09.Arithmetic | day09/src/main.rs:41-51 | a history going up by `d` |
| Day09.ConstantHistory | day09/src/main.rs:34-80 | a constant history extrapolates to its reading both ways |
| Day09.ArithmeticHistory | day09/src/main.rs:34-80 | a history going up by `d` extrapolates to the last reading plus `d` and back to the first minus `d` |
| Day09.StepForward | day09/src/main.rs:39-51 | a history whose differences are a constant `d` other than zero extrapolates by `d` |
| Day09.StepBack | day09/src/main.rs:63-75 | the same, going back |
| Day09.ArithmeticDifferences | day09/src/main.rs:42-48 | the levels below an arithmetic history are constant |
| Day09.Panics | day09/src/main.rs:39-50 | an empty line, a single reading other than zero and two different readings make `unwrap` panic |
| Day09.Part01 | day09/src/main.rs:34-56 | `part01` is the sum of the next readings, `None` if one panics |
| Day09.Part02 | day09/src/main.rs:58-80 | `part02` is the sum of the readings before, `None` if one panics |
| Day09.PanicSpreads | day09/src/main.rs:34-56 | a panic on one line is a panic of the whole sum |
| Day09.ReverseAll | day09/src/main.rs:58-80 | every history reversed, as many as there were |
| Day09.Part02Reversed | day09/src/main.rs:58-80 | part 2 on the histories is part 1 on the reversed histories |
| Day10Elements.Opposite | day10/src/main.rs:283-298 | the opposite direction differs and lies on the same axis |
| Day10Elements.Step | day10/src/main.rs:270-280 | a step always moves to another cell |
| Day10Elements.StepBack | day10/src/main.rs:283-298 | a step is undone by a step the opposite way |
| Day10Elements.PipeLen | day10/src/main.rs:316-321 | `Pipe::len` is at least one |
| Day10Elements.PipeLenCountsCells | day10/src/main.rs:316-321 | a pipe's end is `len - 1` steps from its start in its direction, so `len` counts its cells |
| Day10Elements.StepsAlong | day10/src/main.rs:316-321 | `k` steps in a direction move `k` cells along its axis |
| Day10Elements.PipeNext | day10/src/main.rs:323-371 | a pipe takes a walk exactly along its own axis and sends it on, in the same direction, to the cell past the end it leaves from |
| Day10Elements.CornerNext | day10/src/main.rs:401-448 | a corner takes a walk exactly through one of its openings and sends it out through the other, to the neighbouring cell there |
| Day10Elements.CornerTurns | day10/src/main.rs:401-448 | every corner turns a right angle, takes the walk from exactly two directions, and its openings are each other's exits |
| Day10Elements.ElementNext | day10/src/main.rs:215-221 | the start never takes the walk |
| Day10Elements.NextIsOneStep | day10/src/main.rs:215-221 | every connection a piece sends is one cell away from the cell it is left from, in the connection's direction |
| Day10Elements.ElementLen | day10/src/main.rs:223-229 | `Element::len` is at least one, and one for a corner and the start |
| Day10Elements.PipeGlyph | day10/src/main.rs:374-381 | a vertical pipe shows `|`, a horizontal one `-` |
| Day10Tokenizer.RunToken | day10/src/main.rs:495-509 | `value(kind, many1(char(c)))` reads the maximal run of `c` at the head |
| Day10Tokenizer.SingleToken | day10/src/main.rs:499-501 | `value(kind, char(c))` reads one `c` |
| Day10Tokenizer.TokenLength | day10/src/main.rs:489-525 | a token covers at least one character of the text |
| Day10Tokenizer.Attempt | day10/src/main.rs:489-525 | a branch succeeds exactly on its character |
| Day10Tokenizer.AltPicksFirstMatch | day10/src/main.rs:489-493 | `alt` takes the first branch whose character is at the head |
| Day10Tokenizer.AltFailsWithoutMatch | day10/src/main.rs:489-493 | `alt` fails when no branch's character is at the head |
| Day10Tokenizer.BranchOf | day10/src/main.rs:489-493 | each maze character has its branch, and no earlier branch reads it |
| Day10Tokenizer.MapData | day10/src/main.rs:489-525 | `map_data` succeeds exactly on a maze character and reads one character or the maximal run it starts, as its kind |
| Day10Tokenizer.RunTokensAreMaximal | day10/src/main.rs:495-509 | a run token stops where its character changes |
| Day10Tokenizer.CornerOf | day10/src/main.rs:164-167 | the corner of a corner token stands at the token's cell |
| Day10Tokenizer.CornerGlyphRoundTrip | day10/src/main.rs:451-460 | a corner's `Display` character reads back as that corner, and a corner character drawn back is itself |
| Day10Tokenizer.RunFromMeans | day10/src/main.rs:495-509 | the run from column `x` is made of `c` and stops at the first other character |
| Day10Tokenizer.RunLengthIsRunFrom | day10/src/main.rs:495-509 | the run at the head of the rest of the line is the run from column `x` |
| Day10Tokenizer.TokenLen | day10/src/main.rs:149-151 | the token at column `x` covers at least one character within the line |
| Day10Tokenizer.TokenUniform | day10/src/main.rs:489-525 | a token is one character repeated |
| Day10Tokenizer.MapDataAt | day10/src/main.rs:149-151 | `map_data` on the rest of a line from column `x` succeeds exactly on a maze character and reads the token `TokenLen` measures |
| Day10Tokenizer.ReadToken | day10/src/main.rs:149 | the token read at column `x`, failing exactly on a character that draws nothing |
| Day10Tokenizer.ScanRowStep | day10/src/main.rs:148-173 | one iteration of `parse_row`: a panic on a character that draws nothing, else the token recorded and the scan going on past it |
| Day10Tokenizer.ParseRow | day10/src/main.rs:138-176 | the `while` loop of `parse_row` computes `ScanRow` |
| Day10Tokenizer.ScanColumnStep | day10/src/main.rs:185-202 | one iteration of `parse_column` |
| Day10Tokenizer.ParseColumn | day10/src/main.rs:178-205 | the `while` loop of `parse_column` computes `ScanColumn` |
| Day10Tokenizer.AllMazeFromMeans | day10/src/main.rs:148-149 | every character from column `x` on draws a maze piece |
| Day10Tokenizer.RunsOfMaximal | day10/src/main.rs:158-163 | `RunsOf` lists exactly the maximal runs of a character |
| Day10Tokenizer.CornerDrawnBy | day10/src/main.rs:451-460 | the corner a corner character draws shows that character at that cell |
| Day10Tokenizer.CornerKinds | day10/src/main.rs:164-167 | the token kinds of the corner characters name the corners they draw |
| Day10Tokenizer.LastIndex | day10/src/main.rs:157 | the index found holds the character |
| Day10Tokenizer.LastIndexMeans | day10/src/main.rs:157 | `LastIndex` finds the last occurrence, and none only when there is none |
| Day10Tokenizer.ScanRowFails | day10/src/main.rs:148-149 | the row scan panics exactly on a character that draws nothing |
| Day10Tokenizer.ScanRowPipes | day10/src/main.rs:158-163 | the row scan gives an eastbound and a westbound pipe per maximal `-` run, left to right |
| Day10Tokenizer.ScanRowCorners | day10/src/main.rs:164-167 | the row scan gives every corner character, left to right, as the corner it draws |
| Day10Tokenizer.ScanRowStart | day10/src/main.rs:157 | the row scan's start marker is the last `S` of the row |
| Day10Tokenizer.ParseRowMeaning | day10/src/main.rs:138-176 | `parse_row` panics exactly on a character that draws nothing; otherwise it gives the last `S`, two pipes per maximal `-` run and every corner |
| Day10Tokenizer.ScanColumnMeaning | day10/src/main.rs:185-202 | the column scan panics exactly on a character that draws nothing; otherwise a southbound and a northbound pipe per maximal `|` run |
| Day10Tokenizer.ParseColumnMeaning | day10/src/main.rs:178-205 | `parse_column` in full |
| Day10Topology.PipePieces | day10/src/main.rs:116-118 | every pipe becomes `Element::Pipe` |
| Day10Topology.CornerPieces | day10/src/main.rs:120-122 | every corner becomes `Element::Corner` |
| Day10Topology.LastKeyed | day10/src/main.rs:116-122 | the last piece filed under a cell is one of the pieces, filed under that cell |
| Day10Topology.InsertLookup | day10/src/main.rs:116-132 | inserting in order leaves under every key the last piece filed there, and the old entry where no piece was |
| Day10Topology.InsertPieces | day10/src/main.rs:116-132 | the `for` loops of `insert` compute `Insert` |
| Day10Topology.PushCharsStep | day10/src/main.rs:106-108 | one character pushed onto its column, or a panic past the last column |
| Day10Topology.ScanRowsStep | day10/src/main.rs:105-123 | one iteration of the row loop |
| Day10Topology.ScanColumnsStep | day10/src/main.rs:127-133 | one iteration of the column loop |
| Day10Topology.Parser | day10/src/main.rs:96-136 | `parser` computes `Build` |
| Day10Topology.PushCharsMeans | day10/src/main.rs:106-108 | pushing a row fails exactly when the row is longer than there are columns; otherwise character `j` goes to column `j` |
| Day10Topology.PushCharsMaze | day10/src/main.rs:106-108 | columns of maze characters stay so |
| Day10Topology.RowMaze | day10/src/main.rs:110 | a row scan succeeds exactly on a row of maze characters |
| Day10Topology.ScanRowsFails | day10/src/main.rs:105-123 | the row loop panics exactly on a row longer than the first or with a character that draws nothing; it keeps the number of columns |
| Day10Topology.ScanColumnsSucceed | day10/src/main.rs:127-133 | the column loop never panics on columns of maze characters |
| Day10Topology.BuildFails | day10/src/main.rs:96-136 | `parser` panics exactly when a line is longer than the first or holds a character that draws nothing |
| Day10Topology.StartInMeans | day10/src/main.rs:100-114 | the start kept is (-1, -1) exactly when there is no `S`, and otherwise an `S` with no `S` after it |
| Day10Topology.ScanRowsStart | day10/src/main.rs:105-114 | the row loop keeps the last `S` seen |
| Day10Topology.BuildStart | day10/src/main.rs:96-136 | `Data::start` is the last `S` of the last line with one, or (-1, -1) |
| Day10Topology.InsertSound | day10/src/main.rs:116-132 | inserting drawn pieces keeps every entry drawn |
| Day10Topology.HorizontalDrawn | day10/src/main.rs:158-163 | the pipes of the `-` runs of a row are drawn |
| Day10Topology.CornersDrawn | day10/src/main.rs:164-167 | the corners of a row are drawn |
| Day10Topology.VerticalDrawn | day10/src/main.rs:193-198 | the pipes of the `|` runs of a column are drawn |
| Day10Topology.PushSoFar | day10/src/main.rs:106-108 | pushing row `y` of a rectangular drawing extends every column by its character of that row |
| Day10Topology.ScanRowsSound | day10/src/main.rs:105-123 | the row loop on a rectangular drawing files only drawn pieces and leaves the drawing's columns |
| Day10Topology.ScanColumnsSound | day10/src/main.rs:127-133 | the column loop files only drawn pipes |
| Day10Topology.BuildSound | day10/src/main.rs:96-136 | on a rectangular drawing every entry of `Data::elements` is a pipe or corner filed under a cell that shows it |
| Day10Topology.InsertKeeps | day10/src/main.rs:116-132 | inserting never removes a key |
| Day10Topology.InsertFiles | day10/src/main.rs:116-132 | every piece inserted is filed |
| Day10Topology.CornersOfHas | day10/src/main.rs:164-167 | every corner character of a row is among its corners |
| Day10Topology.RowCornersFiled | day10/src/main.rs:110-122 | after a row, every corner character so far is a key |
| Day10Topology.ScanRowsCorners | day10/src/main.rs:105-123 | after the row loop every corner character is a key |
| Day10Topology.ScanColumnsKeep | day10/src/main.rs:127-133 | the column loop removes no key |
| Day10Topology.DrawnCorner | day10/src/main.rs:120-122 | a drawn corner is the corner its character shows |
| Day10Topology.BuildCorners | day10/src/main.rs:96-136 | on a rectangular drawing every corner character is filed under its cell as the corner it shows: no pipe replaces a corner |
| Day10Walker.AdjacencyLabels | day10/src/main.rs:252-261 | `Start::adjacencies` as written labels the east and west neighbours with the way a walk into them moves, but the cell below the start North and the one above it South, the reverse of that way |
| Day10Walker.FirstAccepted | day10/src/main.rs:69-77 | the first neighbour whose piece takes the walk, or none when none does |
| Day10Walker.FollowStep | day10/src/main.rs:81-90 | one iteration of the `loop` of `build_path` |
| Day10Walker.Walker | day10/src/main.rs:67-93 | `build_path`, neighbours in a given order, computes `PathFrom` |
| Day10Walker.BuildPath | day10/src/main.rs:67-93 | `build_path` with the start's own neighbour list |
| Day10Walker.FollowClosed | day10/src/main.rs:81-90 | a loop that closes extends the chain so far to a chain returning to the start |
| Day10Walker.FollowLoop | day10/src/main.rs:81-90 | a chain returning to the start is closed by the loop |
| Day10Walker.FollowOn | day10/src/main.rs:81-90 | one piece further, away from the start and inside the map |
| Day10Walker.PathIsLoop | day10/src/main.rs:67-93 | `build_path` returns `parts` exactly when `parts` is the loop from the start through the first accepting neighbour back to the start |
| Day10Walker.LoopSteps | day10/src/main.rs:81-90 | each connection of the loop is one cell from where the previous piece is left, and the last piece is left one cell from the start |
| Day10Walker.Part01 | day10/src/main.rs:20-22 | half the cells of the loop, rounded down, not negative |
| Day10Walker.LoopFarthest | day10/src/main.rs:20-22 | a closed loop's farthest point is at least one step away |
| Day10Walker.AdjacenciesBeside | day10/src/main.rs:252-261 | every cell `Start::adjacencies` lists is beside the start |
| Day10Walker.BuildKeyed | day10/src/main.rs:96-136 | in the map `parser` builds, every piece is filed under its own key cell, none is the start and every pipe is well formed |
| Day10Walker.Run | day10/src/main.rs:20-22 | the `k` cells from a cell on in one direction |
| Day10Walker.RunEnds | day10/src/main.rs:223-228 | the last of the cells `Element::len` counts from where a piece is entered is the cell it is left from |
| Day10Walker.TrailWalk | day10/src/main.rs:20-22 | the cells of the loop so far start at the start, move one cell at a time and end where the last piece is left; there are as many as the pieces' lengths add up to |
| Day10Walker.LoopLength | day10/src/main.rs:20-22 | on a loop walked forward, `part01` is half the number of cells of the loop walked one step at a time from the start back to beside it |
| Day10Walker.SmallLoop | day10/src/main.rs:67-93 | on the map of `S-7`, `|.|`, `L-J` the walk closes through eight pieces and `part01` is 4 |
| Day11.Gaps | day11/src/main.rs:132-139 | `galaxy` gives at most one gap per character |
| Day11.ColumnsAppend | day11/src/main.rs:65-83 | one more gap adds one galaxy after the others, and moves `x_offset` past it |
| Day11.DotsSkipped | day11/src/main.rs:137-139 | leading dots add no galaxy column |
| Day11.GapsMeaning | day11/src/main.rs:125-139 | on a row of dots and galaxies, the gaps `galaxy` reads give, once added up as `parse_data` does, exactly the columns of the `#` characters, left to right |
| Day11.ColumnsStep | day11/src/main.rs:67-73 | the first gap gives the first column |
| Day11.GapsStep | day11/src/main.rs:132-135 | a row with a `#` after its leading dots has that gap first |
| Day11.HashStep | day11/src/main.rs:132-135 | the `#` after the leading dots is the first column found |
| Day11.ImageRowSuffix | day11/src/main.rs:132-135 | what follows part of a row of dots and galaxies is one too |
| Day11.HashesMember | day11/src/main.rs:132-135 | a column is found exactly when the row has a `#` there |
| Day11.HashesIncreasing | day11/src/main.rs:67-73 | the columns are found in increasing order, each once |
| Day11.HashesCount | day11/src/main.rs:132-135 | one column per `#` |
| Day11.ParserMeaning | day11/src/main.rs:125-130 | a row of dots and galaxies is `Blank` exactly when it has no `#`, and otherwise has one galaxy per `#` |
| Day11.ColumnsLength | day11/src/main.rs:67-73 | one column per gap |
| Day11.RowGalaxies | day11/src/main.rs:67-73 | one galaxy per column |
| Day11.Expand | day11/src/main.rs:50-101 | `parse_data` gives as many galaxies as were placed |
| Day11.ListsColumnGrow | day11/src/main.rs:72-82 | a column's index list stays one when a galaxy is pushed |
| Day11.ListsColumnPush | day11/src/main.rs:75-82 | a column's index list takes the index of a galaxy pushed into that column |
| Day11.IndexedPush | day11/src/main.rs:72-82 | recording one more galaxy keeps `column_map` an index of the galaxies by column |
| Day11.IndexedKeys | day11/src/main.rs:90-91 | `column_map` has a key exactly for the columns holding a galaxy |
| Day11.ParseData | day11/src/main.rs:50-101 | `parse_data` returns `Expand`: the galaxies placed row by row, each moved right by `oldness - 1` per empty column to its left within the first line's width |
| Day11.PlaceGalaxies | day11/src/main.rs:55-85 | the first loop places the galaxies of every row, `oldness - 1` lower per `Blank` row above, and indexes them by column |
| Day11.PlaceLine | day11/src/main.rs:59-84 | one pass of the first loop: a `Blank` row adds to `y_offset`, another row has its galaxies placed |
| Day11.PlacedStep | day11/src/main.rs:59-84 | one more row adds its galaxies, none for a `Blank` row |
| Day11.BlankRowsStep | day11/src/main.rs:60-62 | one more row adds one `Blank` row if it is one |
| Day11.PlaceRow | day11/src/main.rs:65-83 | the inner loop pushes one row's galaxies and indexes them by column |
| Day11.PushGalaxy | day11/src/main.rs:67-83 | one pass of the inner loop: a galaxy pushed after the gap and recorded under its column |
| Day11.RowStep | day11/src/main.rs:67-73 | one more gap adds its galaxy at the end of the row |
| Day11.ShiftColumns | day11/src/main.rs:87-98 | the second loop moves every galaxy right by `oldness - 1` per empty column to its left, within the width |
| Day11.EmptyStep | day11/src/main.rs:90-97 | an empty column adds `oldness - 1` to `x_offset` |
| Day11.IndexedColumn | day11/src/main.rs:91-94 | the indices listed for a column are increasing, point at galaxies of that column and include all of them |
| Day11.ShiftedStep | day11/src/main.rs:90-98 | once a column's galaxies have moved, every galaxy stands as it should past that column |
| Day11.ShiftColumn | day11/src/main.rs:92-94 | the innermost loop moves the galaxies listed for the column right by `x_offset` |
| Day11.PlacedCount | day11/src/main.rs:55-85 | an image of dots and galaxies has one galaxy per `#` |
| Day11.PlacedRows | day11/src/main.rs:59-84 | every placed galaxy comes from a row that is not `Blank`, sits in one of its galaxy columns, and is `oldness - 1` lower per `Blank` row above |
| Day11.RowGalaxiesAt | day11/src/main.rs:67-73 | the `k`-th galaxy of a row is in its `k`-th column |
| Day11.BlankRowsAppend | day11/src/main.rs:60-62 | `Blank` rows of two blocks add up |
| Day11.RowsApart | day11/src/main.rs:59-69 | galaxies of two rows grow apart by `oldness - 1` per `Blank` row between them |
| Day11.EmptyColumnsSplit | day11/src/main.rs:90-97 | empty columns of adjacent ranges add up |
| Day11.ColumnsApart | day11/src/main.rs:87-98 | two galaxies within the width move apart by `oldness - 1` per empty column strictly between them |
| Day11.Unexpanded | day11/src/main.rs:50-101 | with `oldness` 1 every galaxy stays at its column and row |
| Day11.DistanceMeaning | day11/src/main.rs:114-118 | the distance is symmetric, zero exactly on the same position, and obeys the triangle inequality |
| Day11.CrossCons | day11/src/main.rs:33-48 | one more galaxy adds its distance to each of the others |
| Day11.DistancesHalf | day11/src/main.rs:33-48 | `distances` counts every unordered pair once: twice it is the sum over all ordered pairs |
| Day11.Part01 | day11/src/main.rs:23-26 | part 1 is the distances once every empty row and column is doubled |
| Day11.Part02 | day11/src/main.rs:28-31 | part 2 is the distances once every empty row and column is a million wide |

Functions that only compute carry no contract of their own; the rows above that state them are:

- `Day01.Values`: `Day01.Parser`, `Day01.ValuesAreDigits`, `RootDay01.SameValues`.
- `RootDay01.EveryOffset`: `RootDay01.OffsetsBounded`, `RootDay01.SameValues`.
- `Parsing.SumOf`: `Parsing.SumOfAppend`.
- `Day02.Parser`: `Day02.GameRecord`, `Day02RoundTrip.GameRoundTrip`.
- `Day02.MaxOf`: `Day02.MaxOfIsMax`, `Day02.MaxOfIsLeastBound`, `Day02.MaxCubes`.
- `Day02.Part01`: `Day02.PossibleMeans`, `Day02.Part01Bounds`.
- `Day02.Part02`: `Day02.PowerIsSmallestBag`.
- `Day03.Scan`: `Day03.ScanMeaning`, `Day03.ScanStep`, `Day03.ScanFails`.
- `Day04.Wins`: `Day04.WinsMeaning`.
- `Day04.Part01`: `Day04.PointsMeaning`, `Day04.Part01Append`.
- `Day04.Tally`: `Day04.TallyHas`, `Day04.TallyPositive`, `Day04.TallyTotal`, `Day04.Part02`.
- `Day05.Apply`: `Day05.MapSeed`, `Day05.ApplyAppend`, `Day05.ApplyUnmatched`.
- `Day05.Part01`: `Day05.LocationFromSlice`.
- `Day06.Parser01`: `Day06.Parser01RoundTrip`, `Day06.Parser01Fails`.
- `Day06.Parser02`: `Day06.Parser02RoundTrip`, `Day06.Parser02Fails`, `Day06.Parser02Panics`.
- `Day07.ClassifyCounts`: `Day07.ClassifyCountsPlain`, `Day07.ClassifyTotal`, `Day07.JokeredClass`.
- `Day07.ClassifyHand`: `Day07.ClassifyTotal`, `Day07.ClassifyPlain`, `Day07.WildcardMisclassifies`.
- `Day07.NewHand`: `Day07.NewHandMeaning`.
- `Day07.WildcardAsWritten`: `Day07.NewWildcard`, `Day07.WildcardMisclassifies`.
- `Day07.Wildcard`: `Day07.WildcardMeaning`.
- `Day07.JokerClass`: `Day07.JokerClassBest`.
- `Day07Order.Compare`: `Day07Order.CompareEqual`, `Day07Order.CompareFlip`, `Day07Order.CompareTransitive`.
- `Day07Order.CompareCards`: `Day07Order.CompareCardsMeaning`, `Day07Order.CompareCardsTransitive`.
- `Day07Order.Winnings`: `Day07Order.WinningsShift`, `Day07Order.WinningsBounds`.
- `Day07Hands.Parser01`: `Day07Hands.Parser01Meaning`, `Day07Hands.Parser01RoundTrip`.
- `Day07Hands.Parser02`: `Day07Hands.Parser02Meaning`, `Day07Hands.Parser02RoundTrip`.
- `Day07Hands.Part01`: `Day07Hands.Total`, `Day07Hands.TotalOfAnyRanking`.
- `Day07Hands.Part02`: `Day07Hands.Total`, `Day07Hands.FourJacksAsWritten`.
- `Day08.Data`: `Day08.DataRoundTrip`.
- `Day08.Travel`: `Day08.TravelArrived`, `Day08.TravelArrives`, `Day08.Part01`.
- `Day09.Extrapolate`: `Day09.ExtrapolateMeaning`, `Day09.NextValue`.
- `Day09.ExtrapolateBack`: `Day09.PreviousValue`, `Day09.ExtrapolateBackReversed`.
- `Day09.Total`: `Day09.Part01`, `Day09.Part02`, `Day09.PanicSpreads`.
- `Day09.ParseLine`: `Day09.ParseLineRoundTrip`.
- `Day10Walker.Adjacencies`: `Day10Walker.AdjacencyLabels`, `Day10Walker.AdjacenciesBeside`.
- `Day10Walker.Follow`: `Day10Walker.FollowStep`, `Day10Walker.FollowClosed`, `Day10Walker.FollowLoop`.
- `Day10Walker.PathFrom`: `Day10Walker.PathIsLoop`, `Day10Walker.Walker`, `Day10Walker.SmallLoop`.
- `Day11.Parser`: `Day11.ParserMeaning`.
- `Day11.Distance`: `Day11.DistanceMeaning`.
- `Day11.Distances`: `Day11.DistancesHalf`.
- `Day11.Placed`: `Day11.PlaceGalaxies`, `Day11.PlacedRows`, `Day11.ColumnsApart`.

## Left out

- Reading files, `BufReader`, `fs::read_to_string`, `println!` and the `anyhow` plumbing of every `main` and `partNN`. The text, or the parsed data, is a parameter instead; `Parsing.Lines` stands for `str::lines`. Day 7's `part02` reads `sample.txt`; that file name plays no part in the model.
- Machine integers. Counts (`u8`), sums and products (`u64`, `i64`), `as` casts and the `u64`/`i64` parsers are unbounded `int`/`nat`, so overflow, wrap-around and nom's out-of-range parse errors are not modelled.
- Text encoding. Strings are sequences of characters and every character is taken as one byte. The byte-offset slicing of day01/src/main.rs:45 and src/main.rs:42 is modelled on ASCII input only.
- Day 6 `ways_to_win` and the products of its two parts, because they compute with `f64` `sqrt`, `ceil` and `floor`. The parsers of day 6 are modelled.
- Day 10 `part02`, because it uses the `geo` crate's `Polygon::contains` and `bounding_rect` over `f64` coordinates.
- Day 5 `part02` runs the per-range minima with rayon's `par_iter`. The model takes the minima one range after another, which gives the same value.
- Hash maps and sets are Dafny `map`s and sets, or sequences where the source iterates. Their iteration order is not modelled; every result the source draws from them is sorted first or is a sum or product, which order does not change.
- Day 8 `part02` is commented out in the source and is not modelled. The error branch of day 8's `parser` (`map_err`) cannot arise, since every part of the grammar may match nothing, so `Day08.Data` returns the map data directly.
- Day08.Part01: the `while` loop may run forever (on a cycle that never reaches ZZZ). The model runs at most `fuel` rounds and then answers `OutOfFuel`; `Day08.TravelMoreFuel` shows a larger bound changes no other outcome.
- Day10Walker.LoopLength: takes as a hypothesis that every pipe of the loop is entered moving its own way (or is one cell long). The model does not derive this from the drawing; a pipe entered against its direction would make `Element::len` count cells the walk does not cross in that order.
- Day10Walker.SmallLoop: the map of the 3 by 3 drawing is written out as `parser` files it; the lemma does not run `Build` on the text.
- Day10Walker.Walker: the `loop` of `build_path` may run forever on a path that never returns to the start. The model adds at most `fuel` pieces and then answers `OutOfFuel`; `Day10Walker.PathIsLoop` ties every closed outcome to the loop it walks.
- Day07Order.SortHands: `hands.sort()` sorts the vector in place. The model sorts a sequence value by insertion, which keeps equal hands in input order as Rust's stable sort does; no lemma states that stability, but `Day07Hands.TotalOfAnyRanking` shows that when no two hands tie, every ranking gives the same sum.
- Day11.ShiftColumn: `rows[*index].x += x_offset` updates the vector in place. The model updates a sequence value, so aliasing of `rows` is not modelled (the source has none).
- Failures of the grammars carry no error position or kind; nom's error values are never inspected by the source.

## Findings

| source | as written | input that shows it | evidently intended | confidence | as-written member | corrected member |
|---|---|---|---|---|---|---|
| day07/src/main.rs:155-208 | with jokers (card 0), `classify_hand` looks for a joker only in the first entries of the sorted counts, so jokers that are the most frequent card are missed | `JJJJ2` under `new_wildcard` becomes the counts `(1, 2), (4, 0)`, which the `(1, 4)` arm classifies as four of a kind; so `part02` on the lines `JJJJ2 1` and `AAAAK 5` ranks `JJJJ2` first and gives 11 | the jokers join the most frequent other card, so `JJJJ2` is five of a kind and the same lines give 7 | not executed | Day07Hands.FourJacksAsWritten | Day07Hands.FourJacksAsIntended |

`Day07.NewWildcard`, `Day07Hands.Parser02` and `Day07Hands.Part02` follow the source as written: the hand takes the class `classify_hand` gives its jokered cards (`Day07.WildcardMisclassifies` shows `JJJJ2` read as four of a kind). The corrected class is `Day07.JokerClass`, proved the strongest class the jokers can make (`Day07.JokerClassBest`); `Day07.Wildcard`, `Day07Hands.Parser02Intended` and `Day07Hands.Part02Intended` use it.
