# Fortune site, modelled in Dafny

The repository holds two versions of one Japanese fortune-telling website.
Both offer four fortunes: tarot, zodiac, omikuji and numerology.

- The **vanilla site** (`fortune-site/js`) has a shared script (`main.js`) and a
  fortune engine object (`fortune-engine.js`). The engine holds the tarot,
  zodiac and omikuji tables and assembles the result records. Each fortune has
  its own page script. The tarot, numerology and omikuji page scripts keep
  their state in globals that the click handlers update. A reading travels to
  the result page through one `sessionStorage` slot, which is removed once
  shown.
- The **framework site** (`nextjs-fortune-site/src`) is a Next.js application.
  Each fortune page keeps React state, builds a result record and writes it to
  `localStorage` under `<type>-result`. The result page reads it back, and can
  add it to a ten-entry history. The pages share a helper library
  (`lib/utils.ts`), a tarot table, a numerology table with the life-path
  calculation, and the card-picking panel `TarotSpread`.

The model follows the source's own form:

- Pages and objects whose handlers update state become classes. Their methods
  carry `modifies` clauses and state the whole new state.
- The result records, tables and calculations become datatypes, functions and
  lemmas.
- The loops that update variables step by step are methods with loop
  invariants, each proved equal to a specification function: the
  life-path reduction (`LifePath.Reduce`), the Fisher-Yates shuffle
  (`Utils.Shuffled`), the weighted draws (`Utils.FirstReaching`), the
  calculation lines (`LifePath.RenderSteps` of `LifePath.CalculationTrace`),
  the calculation preview (`NumerologyScript.PreviewOf`), the card entries
  of a tarot reading (`FortuneEngine.CardEntry`) and the result sections
  (`MainScript.SectionsOf`).
- A `forEach` that only concatenates text, as in the multi-card
  interpretation, is a recursive function (`FortuneEngine.Sections`).

The model treats its inputs as follows:

- Every `Math.random()` is a parameter `u` with `0 <= u < 1`.
- Every reading of the clock is a parameter: the current year, today's date,
  the day of the year, the month, the hour, the timestamp and the history id.
- Browser storage is a class holding a map. The map stores the parsed value
  of what was written, or marks text that does not parse.
- JavaScript's `new Date(y, monthIndex, d)` is modelled with its
  normalisation. Two-digit years are read as 19xx, and overflowing days and
  months are carried into the next month or year.

The modules are:

- `Wrappers`: `Option` and `Result`.
- `Text`: split, join, and integer to text and back.
- `Calendar`: calendar dates and `new Date(...)`.
- `LifePath`: the life-path number and its calculation lines.
- `Utils`: `lib/utils.ts`, plus the copies of the random helpers in `main.js`.
- `EngineData` and `FortuneEngine`: the vanilla engine.
- `MainScript`, `TarotScript`, `NumerologyScript` and `OmikujiScript`: the
  vanilla page scripts.
- `TarotData`, `NumerologyTable` and `NextRecords`: the framework site's
  tables, records and `localStorage`.
- `TarotSpreadView`: the tarot card-picking panel.
- `TarotPageNext`, `NumerologyPageNext`, `OmikujiPageNext` and
  `ZodiacPageNext`: the four framework pages.
- `ResultPage`: the framework site's result page.

## Model

| member | source | states |
|---|---|---|
| Text.IndexOf | fortune-site/js/main.js:170 | the position found holds the character and no earlier position does |
| Text.Split | fortune-site/js/main.js:170 | a split on one character yields at least one piece, and no piece contains the separator |
| Text.IndexOfAfterFreePrefix | fortune-site/js/main.js:170 | in a text whose head lacks `c`, the first `c` sits right after the head |
| Text.JoinSplit | fortune-site/js/main.js:170 | joining the pieces of a split with the separator gives the original text back |
| Text.SplitJoin | nextjs-fortune-site/src/lib/utils.ts:2-4 | splitting a join gives the pieces back when none of them contains the separator |
| Text.JoinThree | nextjs-fortune-site/src/lib/data/numerology.ts:163 | joining three pieces puts the separator between each pair |
| Text.JoinAvoids | nextjs-fortune-site/src/lib/data/numerology.ts:163 | a character that occurs in neither the pieces nor the separator does not occur in the join |
| Text.DigitsOf | nextjs-fortune-site/src/lib/data/numerology.ts:161 | `toString().split('').map(Number)` yields at least one digit, each below ten |
| Text.DigitChar | nextjs-fortune-site/src/lib/data/numerology.ts:161 | a digit's character is one of '0'..'9' |
| Text.DecimalString | nextjs-fortune-site/src/lib/data/numerology.ts:145 | the text of a number is non-empty and made of digit characters only |
| Text.DecimalStringIsDigits | nextjs-fortune-site/src/lib/data/numerology.ts:145 | the text of a number has one character per digit, and each is that digit's character |
| Text.ParseDecimalString | nextjs-fortune-site/src/lib/data/numerology.ts:145 | reading back the text of a natural number gives the number |
| Text.ParseIntToString | nextjs-fortune-site/src/lib/data/numerology.ts:145 | `parseInt` of the text of any integer gives that integer |
| Text.DigitSumBound | nextjs-fortune-site/src/lib/data/numerology.ts:144-146 | a digit sum is at most the number, is strictly smaller from 10 on, and is positive for a positive number |
| TextReplace.ReplaceFirstOccurrence | fortune-site/js/fortune-engine.js:252-255 | `replace` with a string pattern replaces exactly the first occurrence, keeping the text around it |
| TextReplace.ReplaceFirstAbsent | fortune-site/js/fortune-engine.js:252-255 | without an occurrence the text is unchanged |
| TextReplace.ReplaceSkipsFreePrefix | fortune-site/js/fortune-engine.js:252-255 | a prefix without the pattern's first character is kept and the search goes on after it |
| TextReplace.ReplaceSkipsHead | fortune-site/js/fortune-engine.js:252-255 | a text not starting with the pattern keeps its first character |
| TextReplace.ReplaceFreeText | fortune-site/js/fortune-engine.js:252-255 | a text without the pattern's first character is unchanged |
| Calendar.DaysInMonth | fortune-site/js/numerology.js:109 | a month has 28 to 31 days; 31 exactly for the long months; 29 exactly for February of a leap year |
| Calendar.CarryDays | fortune-site/js/numerology.js:225 | carrying an out-of-range day lands on a calendar date, and a calendar date is left alone |
| Calendar.JsDate | fortune-site/js/numerology.js:225 | `new Date(y, monthIndex, d)` always denotes a calendar date |
| Calendar.CarrySmallDay | fortune-site/js/numerology.js:225-228 | a day of at most 31 moves the year by at most one |
| Calendar.JsDateRoundTrip | fortune-site/js/numerology.js:225-231 | `new Date(y, m - 1, d)` reads back y, m, d exactly when y is not a two-digit year and y-m-d is a calendar date |
| Calendar.JsMonthLength | fortune-site/js/numerology.js:109 | `new Date(y, m, 0).getDate()` is the length of month m, in the year `Date` reads y as |
| LifePath.DigitSum | nextjs-fortune-site/src/lib/data/numerology.ts:145 | the digit sum is below the number from 10 on, and positive for a positive number, so the reduction terminates |
| LifePath.Reduce | nextjs-fortune-site/src/lib/data/numerology.ts:144-148 | the reduction ends on a single digit or a master number; a positive sum yields a life-path number (1-9, 11, 22, 33); a value already final is kept |
| LifePath.OperandTexts | nextjs-fortune-site/src/lib/data/numerology.ts:163 | each operand is printed with its own decimal text, in order |
| LifePath.RenderSteps | nextjs-fortune-site/src/lib/data/numerology.ts:156-163 | one line per step, each rendered as "a + b + … = total" |
| LifePath.ReductionTrace | nextjs-fortune-site/src/lib/data/numerology.ts:158-165 | the reduction has no steps exactly when the sum is already final |
| LifePath.CalculationTrace | nextjs-fortune-site/src/lib/data/numerology.ts:151-168 | the trace opens with the addition of year, month and day |
| LifePath.DigitSumOfText | nextjs-fortune-site/src/lib/data/numerology.ts:145 | the loop over the characters of the number's text adds up to the digit sum |
| LifePath.CalculateLifePathNumber | nextjs-fortune-site/src/lib/data/numerology.ts:136-149 | the loop returns the reduction of year + month + day, which is a life-path number when the sum is positive |
| LifePath.GetCalculationSteps | nextjs-fortune-site/src/lib/data/numerology.ts:151-168 | the lines are the rendered calculation trace: the addition, then one line per digit sum |
| LifePath.FirstLine | nextjs-fortune-site/src/lib/data/numerology.ts:155-156 | the first line of the steps is the addition of year, month and day |
| LifePath.ReductionLine | nextjs-fortune-site/src/lib/data/numerology.ts:160-164 | a sum that is not final adds the line of its digits followed by the lines of its digit sum |
| LifePath.RenderStepsCons | nextjs-fortune-site/src/lib/data/numerology.ts:163 | rendering is line by line over the steps |
| LifePath.TraceEndsOnReduce | nextjs-fortune-site/src/lib/data/numerology.ts:159-165 | the trace is empty exactly when the sum is already final; otherwise its last total is the reduced value |
| LifePath.TraceCons | nextjs-fortune-site/src/lib/data/numerology.ts:160-164 | one iteration of the loop adds the digits of the current value and continues from their sum |
| LifePath.TraceLinesAreDigitSums | nextjs-fortune-site/src/lib/data/numerology.ts:160-164 | every line adds the digits of the previous total; the first line adds the digits of the sum |
| LifePath.CalculationTraceEnds | nextjs-fortune-site/src/lib/data/numerology.ts:151-168 | the calculation starts with the raw addition and ends on the life-path number |
| LifePath.ReductionShownIffNotFinal | nextjs-fortune-site/src/lib/data/numerology.ts:160 | a reduction line appears exactly when the raw sum is not final |
| LifePath.RenderStepSplitsOnEquals | nextjs-fortune-site/src/lib/data/numerology.ts:163 | a rendered line splits on '=' into the operands and the total |
| LifePath.IntTextHasNoEquals | nextjs-fortune-site/src/lib/data/numerology.ts:163 | the text of a number contains no '=' |
| LifePath.LastLineShowsLifePath | nextjs-fortune-site/src/lib/data/numerology.ts:151-168 | the number after the '=' of the last calculation line reads back as the life-path number |
| LifePath.ExampleMasterNumber | nextjs-fortune-site/src/lib/data/numerology.ts:144 | 1990-12-25 sums to 2027, whose digits give the master number 11, which stops the loop |
| LifePath.ExampleSingleDigit | nextjs-fortune-site/src/lib/data/numerology.ts:144 | 2000-01-01 sums to 2002 and reduces to 4 |
| LifePath.SumOfFourDigits | nextjs-fortune-site/src/lib/data/numerology.ts:162 | the reduce over four digits adds them all |
| NumerologyTable.ProfilesCoverLifePaths | nextjs-fortune-site/src/lib/data/numerology.ts:1-134 | the profile table has an entry for exactly the life-path numbers |
| NumerologyTable.LifePathHasProfile | nextjs-fortune-site/src/app/numerology/page.tsx:57-59 | the life-path number of a date with a positive sum always has a profile |
| TarotData.SpreadOf | nextjs-fortune-site/src/lib/data/tarot.ts:160-171 | the one-card spread has one position, the three-card spread three |
| TarotData.CardsAreIndexed | nextjs-fortune-site/src/lib/data/tarot.ts:3-158 | 22 cards, and each id is the card's place in the table |
| TarotData.CardsHaveMeanings | nextjs-fortune-site/src/lib/data/tarot.ts:3-158 | every card has a non-empty upright and reversed meaning |
| TarotData.CardNamesAreDistinct | nextjs-fortune-site/src/lib/data/tarot.ts:3-158 | no two cards share a name |
| TarotData.SpreadPositions | nextjs-fortune-site/src/lib/data/tarot.ts:160-171 | the one-card spread reads "現在の状況"; the three-card spread reads past, present, future in that order |
| Utils.KeptClasses | nextjs-fortune-site/src/lib/utils.ts:3 | `filter(Boolean)` keeps exactly the truthy arguments and nothing else |
| Utils.KeptClassesAppend | nextjs-fortune-site/src/lib/utils.ts:3 | the filter distributes over concatenation, so argument order is kept |
| Utils.Cn | nextjs-fortune-site/src/lib/utils.ts:2-4 | the class text is empty exactly when no argument is truthy |
| Utils.CnSplitsBack | nextjs-fortune-site/src/lib/utils.ts:2-4 | splitting `cn(...)` on spaces gives back the truthy arguments in order; with none the result is empty |
| Utils.RandomIndex | nextjs-fortune-site/src/lib/utils.ts:8 | `Math.floor(Math.random() * n)` is an index below n |
| Utils.RandomScaleBound | nextjs-fortune-site/src/lib/utils.ts:8 | the scaled draw lies in [0, n) |
| Utils.RandomIndexCovers | nextjs-fortune-site/src/lib/utils.ts:8 | every index below n is drawn by some draw |
| Utils.GetRandomElement | nextjs-fortune-site/src/lib/utils.ts:7-9 | the element drawn is one of the array's; an empty array gives `undefined` |
| Utils.GetRandomNumber | nextjs-fortune-site/src/lib/utils.ts:12-14 | the number drawn lies in [min, max] |
| Utils.SwapPartner | nextjs-fortune-site/src/lib/utils.ts:20 | the partner of position i is at most i |
| Utils.Swap | nextjs-fortune-site/src/lib/utils.ts:21 | a swap keeps the length |
| Utils.SwapMultiset | nextjs-fortune-site/src/lib/utils.ts:21 | a swap keeps the multiset of elements |
| Utils.ShuffleFrom | nextjs-fortune-site/src/lib/utils.ts:19-22 | the remaining passes keep the length |
| Utils.Shuffled | nextjs-fortune-site/src/lib/utils.ts:17-24 | the shuffle keeps the length |
| Utils.ShuffleFromPermutes | nextjs-fortune-site/src/lib/utils.ts:19-22 | the passes keep the multiset of elements |
| Utils.ShuffledPermutes | nextjs-fortune-site/src/lib/utils.ts:17-24 | the shuffle is a permutation of its input |
| Utils.ShuffleArray | nextjs-fortune-site/src/lib/utils.ts:17-24 | the in-place loop on a fresh copy yields the specified shuffle, a permutation of the input, and leaves the input array unchanged |
| Utils.ArrayOf | nextjs-fortune-site/src/lib/utils.ts:18 | `[...array]` is a fresh array with the same elements |
| Utils.SwapInPlace | nextjs-fortune-site/src/lib/utils.ts:21 | the destructuring swap exchanges exactly the two positions |
| Utils.FirstReachingFrom | nextjs-fortune-site/src/lib/utils.ts:47-52 | the position found is the first at or after `from` whose running sum reaches the draw |
| Utils.FirstReaching | nextjs-fortune-site/src/lib/utils.ts:47-52 | the first position whose running sum reaches the draw, or the list's length when none does |
| Utils.SelectByProbability | nextjs-fortune-site/src/lib/utils.ts:43-56 | the loop picks the first entry whose running sum reaches the draw, falls back to the last entry, and gives nothing for an empty list; whatever the draw, a non-empty list gives one of its entries |
| Utils.QuarterTableExample | nextjs-fortune-site/src/lib/utils.ts:43-56 | with probabilities 0.1-0.4, a draw of 0.05 picks the first entry and 0.95 the fourth |
| Utils.SliceEnd | nextjs-fortune-site/src/lib/utils.ts:61 | `slice(0, end)` clamps its end to the text, counting negative ends from the back |
| Utils.TruncateText | nextjs-fortune-site/src/lib/utils.ts:59-62 | a text that fits is returned unchanged; otherwise a prefix of the text followed by "...", of length maxLength + 3 for a non-negative limit |
| Utils.TruncateBound | nextjs-fortune-site/src/lib/utils.ts:59-62 | truncation adds at most the three dots |
| Utils.GetCurrentSeason | nextjs-fortune-site/src/lib/utils.ts:65-72 | spring is months 3-5, summer 6-8, autumn 9-11, winter the rest, each as an if-and-only-if |
| Utils.SeasonsSplitTheYear | nextjs-fortune-site/src/lib/utils.ts:65-72 | each season owns three months, and winter is December to February |
| Utils.GetCurrentTimeOfDay | nextjs-fortune-site/src/lib/utils.ts:75-82 | morning is hours 5-11, daytime 12-16, evening 17-20, night the rest, each as an if-and-only-if |
| Utils.TimesSplitTheDay | nextjs-fortune-site/src/lib/utils.ts:75-82 | of 24 hours, 7 are morning, 5 daytime, 4 evening and 8 night |
| Utils.HoursOfMorning | nextjs-fortune-site/src/lib/utils.ts:78 | morning is hours 5 to 11 |
| Utils.HoursOfDaytime | nextjs-fortune-site/src/lib/utils.ts:79 | daytime is hours 12 to 16 |
| Utils.HoursOfEvening | nextjs-fortune-site/src/lib/utils.ts:80 | evening is hours 17 to 20 |
| Utils.HoursOfNight | nextjs-fortune-site/src/lib/utils.ts:81 | night is hours 21 to 4 |
| FortuneEngine.ErrorResult | fortune-site/js/fortune-engine.js:309-316 | the error result carries the message as its description and has no lucky block |
| FortuneEngine.PoolFor | fortune-site/js/fortune-engine.js:299 | every pool is non-empty, and an unknown type uses the tarot pool |
| FortuneEngine.GenerateLuckyItems | fortune-site/js/fortune-engine.js:275-306 | the color, number and item drawn come from the type's pools |
| FortuneEngine.UnknownTypeUsesTarotPools | fortune-site/js/fortune-engine.js:299 | an unknown fortune type draws exactly what "tarot" draws |
| FortuneEngine.GenerateZodiacResult | fortune-site/js/fortune-engine.js:138-149 | the title names the sign; the lucky block is the fortune level's |
| FortuneEngine.GenerateOmikujiResult | fortune-site/js/fortune-engine.js:152-163 | the entry's level is the title; the texts and lucky block are the entry's |
| FortuneEngine.GenerateNumerologyResult | fortune-site/js/fortune-engine.js:166-177 | the title shows the life-path number, which is also the lucky number |
| FortuneEngine.Orientations | fortune-site/js/fortune-engine.js:260 | one orientation per card, in order |
| FortuneEngine.UprightCount | fortune-site/js/fortune-engine.js:260 | the upright count is at most the total, and equals it exactly when no card is reversed |
| FortuneEngine.TarotTone | fortune-site/js/fortune-engine.js:259-272 | all upright; more than half upright; exactly half; fewer than half: each branch as an if-and-only-if |
| FortuneEngine.ToneMessagesDiffer | fortune-site/js/fortune-engine.js:263-271 | the four overall messages are pairwise different |
| FortuneEngine.UprightCountIsMultiplicity | fortune-site/js/fortune-engine.js:260 | the upright count is the number of `false` orientations |
| FortuneEngine.ToneIgnoresOrder | fortune-site/js/fortune-engine.js:259-272 | the overall message depends only on how many cards are upright, not on their order |
| FortuneEngine.GenerateTarotOverall | fortune-site/js/fortune-engine.js:258-272 | each of the four messages is given exactly when its condition on the upright count holds |
| FortuneEngine.FillActionTemplate | fortune-site/js/fortune-engine.js:252-255 | the first template, filled, is the sentence with the action in place |
| FortuneEngine.FillEmotionTemplate | fortune-site/js/fortune-engine.js:252-255 | the second template, filled, is the sentence with emotion and action in place |
| FortuneEngine.FillTimingTemplate | fortune-site/js/fortune-engine.js:252-255 | the third template, filled, is the sentence with timing and action in place; the emotion replacement changes nothing |
| FortuneEngine.FillTemplateWritesSentence | fortune-site/js/fortune-engine.js:241-255 | each of the three templates, filled by the three `replace` calls, is its written-out sentence |
| FortuneEngine.SentencesHaveNoPlaceholder | fortune-site/js/fortune-engine.js:241-250 | no filled sentence keeps a placeholder |
| FortuneEngine.GenerateTarotAdvice | fortune-site/js/fortune-engine.js:239-256 | the advice is the drawn template's sentence with the drawn action, emotion and timing, and no placeholder is left |
| FortuneEngine.PositionLabel | fortune-site/js/fortune-engine.js:117-119 | cards 0-2 are labelled past, present, future |
| FortuneEngine.CardSection | fortune-site/js/fortune-engine.js:119-121 | a card's section opens with its label and name and closes with its meaning and a blank line |
| FortuneEngine.Sections | fortune-site/js/fortune-engine.js:118-122 | the interpretation is empty exactly when there are no cards, and otherwise opens with a label bracket |
| FortuneEngine.GenerateTarotResult | fortune-site/js/fortune-engine.js:101-135 | a single card is described by name, orientation and meaning; several cards by one section each in order; the title is fixed; the advice is `generateTarotAdvice`'s, and the overall text and the tarot lucky block are attached |
| FortuneEngine.SectionsPrefix | fortune-site/js/fortune-engine.js:118-122 | the text of the first k cards is a prefix of the whole interpretation |
| FortuneEngine.FirstSectionOpening | fortune-site/js/fortune-engine.js:119 | the first card's section opens with the past label and the card's name |
| FortuneEngine.SpreadTextStartsWithPast | fortune-site/js/fortune-engine.js:115-122 | with several cards, the interpretation opens with the first card under "過去" |
| FortuneEngine.JsRemainder5 | fortune-site/js/fortune-engine.js:195 | JavaScript's `% 5` agrees with the mathematical remainder on non-negative numbers; on negative ones it is zero for a multiple of five and the mathematical remainder less five otherwise |
| FortuneEngine.CalculateZodiacFortune | fortune-site/js/fortune-engine.js:193-236 | whenever a level is returned it is entry (day + id) mod 5 of the five levels; `undefined` comes exactly from a negative day + id that is not a multiple of five |
| FortuneEngine.ZodiacFortuneRepeats | fortune-site/js/fortune-engine.js:195 | a sign's level repeats every five days |
| FortuneEngine.FiveDays | fortune-site/js/fortune-engine.js:195 | five consecutive days give five levels |
| FortuneEngine.FiveDaysShowEveryLevel | fortune-site/js/fortune-engine.js:195-233 | five consecutive days show a sign every one of the five levels |
| FortuneEngine.FindSign | fortune-site/js/fortune-engine.js:71 | `find` gives nothing exactly when no sign has the name, and otherwise a sign with that name |
| FortuneEngine.CardEntry | fortune-site/js/fortune-engine.js:53-62 | the entry records its position, card and orientation, and the meaning of that orientation |
| FortuneEngine.Engine.constructor | fortune-site/js/fortune-engine.js:5-8 | the engine starts with no tables |
| FortuneEngine.Engine.LoadFortuneData | fortune-site/js/fortune-engine.js:11-37 | each table is whatever its load produced, null on a failed fetch |
| FortuneEngine.Engine.LoadDefaultData | fortune-site/js/fortune-engine.js:40-46 | all three tables are the built-in defaults |
| FortuneEngine.Engine.TarotData | fortune-site/js/fortune-engine.js:50 | a missing tarot table falls back to the default |
| FortuneEngine.Engine.ZodiacData | fortune-site/js/fortune-engine.js:70 | a missing zodiac table falls back to the default |
| FortuneEngine.Engine.OmikujiData | fortune-site/js/fortune-engine.js:85 | a missing omikuji table falls back to the default |
| FortuneEngine.Engine.PerformTarotReading | fortune-site/js/fortune-engine.js:49-66 | succeeds exactly when every selected index names a card; then there is one entry per card, in selection order, and the reading assembled from them |
| FortuneEngine.Engine.PerformZodiacReading | fortune-site/js/fortune-engine.js:69-81 | an unknown sign name gives the error result; for a known sign, the reading throws exactly when its level is `undefined`, and is otherwise the zodiac record of that sign with level (day + id) mod 5 |
| FortuneEngine.Engine.PerformOmikujiReading | fortune-site/js/fortune-engine.js:84-89 | succeeds exactly when the table is non-empty, and the result is that of one of its entries |
| FortuneEngine.Engine.CalculateLifePathNumber | fortune-site/js/fortune-engine.js:180-190 | the engine's loop gives the same life-path number as the reduction |
| FortuneEngine.Engine.PerformNumerologyReading | fortune-site/js/fortune-engine.js:92-98 | succeeds exactly when the number has an entry, which every positive date sum has; the lucky number is the life-path number |
| FortuneEngine.NumerologyDataCoversLifePaths | fortune-site/js/fortune-engine.js:397-472 | the engine's numerology data has an entry for exactly the life-path numbers |
| FortuneEngine.NumerologyDataMatchesProfiles | fortune-site/js/fortune-engine.js:397-472 | the engine's numerology texts are those of the framework site's profile table |
| FortuneEngine.DefaultTableRejectsLaterCards | fortune-site/js/fortune-engine.js:319-334 | with the ten-card default table, picking card 10 to 21 makes the reading throw |
| MainScript.GetCurrentPage | fortune-site/js/main.js:168-172 | the page name is non-empty and contains neither '/' nor '.' |
| MainScript.IndexOfAfterHead | fortune-site/js/main.js:170 | the first separator after a separator-free head is found right after it |
| MainScript.SplitLastPiece | fortune-site/js/main.js:170 | `pop()` of a split is the text after the last separator |
| MainScript.PageOfFileName | fortune-site/js/main.js:168-172 | "/dir/name.ext" is page "name" |
| MainScript.DirectoryIsIndex | fortune-site/js/main.js:171 | a path ending in '/' is the index page |
| MainScript.NavigateToFortune | fortune-site/js/main.js:41-56 | navigation happens exactly for the four fortune types, to "<type>.html" |
| MainScript.LuckyLinesFollowFields | fortune-site/js/main.js:277-294 | one lucky line per truthy field, each at most once, color before number before item |
| MainScript.SectionsInFixedOrder | fortune-site/js/main.js:259-297 | sections come in the order title, description, advice, lucky, each at most once |
| MainScript.SectionsFollowFields | fortune-site/js/main.js:259-297 | a section is shown exactly for each truthy field, with that field's text |
| MainScript.LuckyLines | fortune-site/js/main.js:277-294 | the `+=` steps build exactly the specified lucky lines |
| MainScript.LuckyLinesOf | fortune-site/js/main.js:277-294 | at most three lines, and none exactly when no lucky field is truthy |
| MainScript.SectionsOf | fortune-site/js/main.js:259-297 | at most four sections, the title first when present, the lucky block last when present |
| MainScript.DisplayStructuredResult | fortune-site/js/main.js:259-297 | the appended sections are exactly the specified ones |
| MainScript.ResultTitle | fortune-site/js/main.js:237-244 | an unknown type is titled "占い結果" |
| MainScript.SessionStore.constructor | fortune-site/js/main.js:67-79 | the session slot starts empty |
| MainScript.SessionStore.GoToResult | fortune-site/js/main.js:67-79 | the slot now holds this reading, whatever it held before |
| MainScript.SessionStore.DisplayFortuneResult | fortune-site/js/main.js:223-256 | nothing stored sends the page home; the reading is rendered and then removed only when both targets exist; a structured reading is rendered section by section, anything else as one paragraph |
| MainScript.ShownOnce | fortune-site/js/main.js:223-256 | a reading handed over is shown once, and the next visit goes home |
| NumerologyScript.FieldValue | fortune-site/js/numerology.js:72 | `parseInt(...) \|\| null` keeps exactly the non-zero numbers |
| NumerologyScript.KeptDay | fortune-site/js/numerology.js:119-125 | the previous day survives exactly when it is set and fits the month |
| NumerologyScript.DateSelection.constructor | fortune-site/js/numerology.js:3-7 | all three fields start unset |
| NumerologyScript.DateSelection.SelectYear | fortune-site/js/numerology.js:71-76 | only the year changes, to the picker's truthy value |
| NumerologyScript.DateSelection.SelectMonth | fortune-site/js/numerology.js:78-84 | the month changes and the day is re-checked against the new month's length |
| NumerologyScript.DateSelection.SelectDay | fortune-site/js/numerology.js:86-91 | only the day changes |
| NumerologyScript.DateSelection.UpdateDayOptions | fortune-site/js/numerology.js:95-126 | without a year or month the day is untouched; otherwise it survives only if it fits the month's length |
| NumerologyScript.DateSelection.CalculateButtonDisabled | fortune-site/js/numerology.js:200-215 | the button is disabled exactly when a field is unset |
| NumerologyScript.DateSelection.CheckBirthDate | fortune-site/js/numerology.js:218-237 | missing fields, non-dates (and two-digit years) and future dates are each refused; a complete real date with a year outside 0-99 is refused as future exactly when it is after today, and proceeds otherwise |
| NumerologyScript.DateSelection.CalculationPreview | fortune-site/js/numerology.js:140-150 | the preview appears exactly when every field is set, and is the preview of that date |
| NumerologyScript.PreviewHeader | fortune-site/js/numerology.js:157-167 | the preview opens with the date and the addition line |
| NumerologyScript.CalculateLifePathPreview | fortune-site/js/numerology.js:153-197 | the built blocks are exactly the specified preview |
| NumerologyScript.PreviewOf | fortune-site/js/numerology.js:153-197 | the second block is the addition of year, month and day, and the preview ends on the life-path number |
| NumerologyScript.ReductionLines | fortune-site/js/numerology.js:170-178 | the loop pushes the rendered reduction trace and stops on the reduced value |
| NumerologyScript.PreviewShowsReduction | fortune-site/js/numerology.js:153-197 | the preview ends on the life-path number, and shows step 3, the lines of the reduction, exactly when the sum is reduced |
| TarotScript.VanillaDeckIsIndexed | fortune-site/js/tarot.js:17-44 | the deck has 22 cards, each id its place |
| TarotScript.VanillaDeckMatchesCardTable | fortune-site/js/tarot.js:17-44 | the deck's names and symbols are those of the framework site's card table |
| TarotScript.TarotPage.constructor | fortune-site/js/tarot.js:3-5 | no cards, a one-card reading, no deck |
| TarotScript.TarotPage.PrepareTarotCards | fortune-site/js/tarot.js:17-44 | the deck is installed and nothing else changes |
| TarotScript.TarotPage.SelectTarotMethod | fortune-site/js/tarot.js:47-58 | a reading of `count` cards starts from an empty selection, showing `count` remaining |
| TarotScript.TarotPage.SelectCard | fortune-site/js/tarot.js:106-143 | a repeated card or a full selection is ignored; otherwise the card is appended, the counter shows the cards still to pick, and the reading is complete exactly when none remain |
| TarotScript.TarotPage.StartTarotReading | fortune-site/js/tarot.js:146-150 | the reading starts exactly with `cardCount` cards |
| TarotScript.TarotPage.GoBackToMethod | fortune-site/js/tarot.js:176-180 | back to an empty one-card selection |
| TarotScript.ThreeCardSelection | fortune-site/js/tarot.js:106-150 | three distinct picks fill a three-card reading, and a fourth pick changes nothing |
| OmikujiScript.OmikujiPage.constructor | fortune-site/js/omikuji.js:8-13 | no shakes, no result, step 1 |
| OmikujiScript.OmikujiPage.ResetOmikujiState | fortune-site/js/omikuji.js:15-21 | count zero, not shaking, no result, counter zero |
| OmikujiScript.OmikujiPage.Shake | fortune-site/js/omikuji.js:23-39 | a shake starts exactly when none is running and fewer than three were made; then the count goes up by one and the counter shows it |
| OmikujiScript.OmikujiPage.FinishShake | fortune-site/js/omikuji.js:42-52 | the shake ends, and after the third the stick step comes |
| OmikujiScript.OmikujiPage.ResetOmikuji | fortune-site/js/omikuji.js:169-178 | the state is reset and the page returns to step 1 |
| OmikujiScript.ThreeShakes | fortune-site/js/omikuji.js:23-52 | a click during a shake is ignored, three shakes bring up the stick, and a fourth is refused |
| NextRecords.LocalStorage.constructor | nextjs-fortune-site/src/app/result/page.tsx:26 | storage starts empty |
| NextRecords.LocalStorage.SetItem | nextjs-fortune-site/src/app/tarot/page.tsx:73 | reading the key back parses to the written value, and no other key changes |
| TarotSpreadView.MaxCards | nextjs-fortune-site/src/components/fortune/TarotSpread.tsx:21 | the card limit is the number of the spread's positions |
| TarotSpreadView.IsDisabled | nextjs-fortune-site/src/components/fortune/TarotSpread.tsx:116 | a card is disabled exactly when it is unselected and the selection is full |
| TarotSpreadView.DisabledCardsFollowCompleteness | nextjs-fortune-site/src/components/fortune/TarotSpread.tsx:115-116 | nothing is disabled before the selection is full; once complete, exactly the unselected cards are |
| TarotSpreadView.CompleteButtonState | nextjs-fortune-site/src/components/fortune/TarotSpread.tsx:130-140 | the button is disabled exactly while incomplete, and its label counts the cards still to pick |
| TarotSpreadView.PositionAt | nextjs-fortune-site/src/components/fortune/TarotSpread.tsx:93 | a label exists exactly for the spread's positions |
| TarotSpreadView.PreviewLabels | nextjs-fortune-site/src/components/fortune/TarotSpread.tsx:88-93 | the i-th selected card is labelled with the i-th position |
| TarotSpreadView.ThreeCardPreview | nextjs-fortune-site/src/components/fortune/TarotSpread.tsx:88-93 | a full three-card selection is labelled past, present, future |
| TarotPageNext.Without | nextjs-fortune-site/src/app/tarot/page.tsx:31 | the filter removes exactly the card, keeping the others, their distinctness and their range |
| TarotPageNext.IndexIn | nextjs-fortune-site/src/app/tarot/page.tsx:50 | `indexOf` finds the first position holding the card |
| TarotPageNext.IndexOfDistinct | nextjs-fortune-site/src/app/tarot/page.tsx:50 | with distinct cards, `indexOf` of the i-th card is i |
| TarotPageNext.DrawnCards | nextjs-fortune-site/src/app/tarot/page.tsx:46-55 | one entry per selected card in order, with its card, its own orientation coin, its position and the meaning its other coin picks |
| TarotPageNext.EntryTexts | nextjs-fortune-site/src/app/tarot/page.tsx:59 | one "position: name" text per drawn card |
| TarotPageNext.ThreeCardPositions | nextjs-fortune-site/src/app/tarot/page.tsx:48-50 | three distinct cards are labelled past, present, future in selection order |
| TarotPageNext.OneCardPositions | nextjs-fortune-site/src/app/tarot/page.tsx:48-49 | every card of a one-card reading gets the one-card position |
| TarotPageNext.MeaningIndependentOfOrientation | nextjs-fortune-site/src/app/tarot/page.tsx:51-54 | a card drawn reversed can show its upright meaning |
| TarotPageNext.TarotPage.constructor | nextjs-fortune-site/src/app/tarot/page.tsx:17-20 | spread selection, three-card spread, no cards, not loading |
| TarotPageNext.TarotPage.HandleSpreadSelect | nextjs-fortune-site/src/app/tarot/page.tsx:22-25 | the spread is chosen, the page moves to card selection, and the selection is kept |
| TarotPageNext.TarotPage.HandleCardSelect | nextjs-fortune-site/src/app/tarot/page.tsx:27-35 | a selected card is removed; a new one is appended while there is room; otherwise nothing changes; cards stay distinct and within the limit |
| TarotPageNext.TarotPage.HandleComplete | nextjs-fortune-site/src/app/tarot/page.tsx:37-78 | nothing happens unless the selection is complete; then the stored result has the spread's title, the drawn cards' texts, the first card's meaning as advice, and lucky values from their lists |
| NumerologyPageNext.IsValidDate | nextjs-fortune-site/src/app/numerology/page.tsx:30-44 | valid exactly for a real calendar date from 1900 to this year, which `new Date(y, m - 1, d)` then reads back unchanged |
| NumerologyPageNext.MonthLengthsChecked | nextjs-fortune-site/src/app/numerology/page.tsx:40-41 | 29 February passes only in a leap year; 31 April and next year fail |
| NumerologyPageNext.NumerologyPage.constructor | nextjs-fortune-site/src/app/numerology/page.tsx:15-21 | input step, empty date, not loading |
| NumerologyPageNext.NumerologyPage.HandleDateChange | nextjs-fortune-site/src/app/numerology/page.tsx:23-28 | only the named field changes |
| NumerologyPageNext.NumerologyPage.HandleCalculate | nextjs-fortune-site/src/app/numerology/page.tsx:46-87 | a result is stored exactly for a valid date, and it is the reading of that date; an invalid date changes nothing |
| NumerologyPageNext.CalculateReading | nextjs-fortune-site/src/app/numerology/page.tsx:55-80 | the computation gives the specified reading of the date |
| NumerologyPageNext.ReadingFromParts | nextjs-fortune-site/src/app/numerology/page.tsx:57-80 | the life-path number and the calculation lines, worked out separately, assemble into the reading of the date, and the number has a profile |
| NumerologyPageNext.ResultOf | nextjs-fortune-site/src/app/numerology/page.tsx:62-80 | the title, detail, final number and lucky number all show the given number, and the texts are its profile's |
| NumerologyPageNext.NumerologyReading | nextjs-fortune-site/src/app/numerology/page.tsx:55-80 | the stored reading carries the date's life-path number and its calculation lines, the drawn direction and the timestamp |
| NumerologyPageNext.ReadingShowsOneNumber | nextjs-fortune-site/src/app/numerology/page.tsx:57-80 | title, detail, final number and lucky number all show the date's life-path number, and the texts are its profile's |
| NumerologyPageNext.StoredStepsEndOnLifePath | nextjs-fortune-site/src/app/numerology/page.tsx:58-70 | the last stored calculation line ends on the number the title shows |
| OmikujiPageNext.Weights | nextjs-fortune-site/src/app/omikuji/page.tsx:36 | one weight per entry, its probability |
| OmikujiPageNext.DrawnIndex | nextjs-fortune-site/src/app/omikuji/page.tsx:33-41 | the first entry whose running sum reaches the draw, or the first entry when none does |
| OmikujiPageNext.DrawEntry | nextjs-fortune-site/src/app/omikuji/page.tsx:30-41 | the loop's pick is the specified entry, one of the table's |
| OmikujiPageNext.OmikujiReading | nextjs-fortune-site/src/app/omikuji/page.tsx:44-58 | the title shows the entry's level, and the lucky block is the entry's |
| OmikujiPageNext.OmikujiPage.constructor | nextjs-fortune-site/src/app/omikuji/page.tsx:15-16 | ready, not drawing |
| OmikujiPageNext.OmikujiPage.HandleDraw | nextjs-fortune-site/src/app/omikuji/page.tsx:18-65 | the page ends loading, and the stored result is that of the drawn entry |
| OmikujiPageNext.FullTableNeedsNoFallback | nextjs-fortune-site/src/app/omikuji/page.tsx:33-41 | when the probabilities add up to the draw, the pick is the first entry reaching it and the fallback is unused |
| OmikujiPageNext.FallbackIsFirstEntry | nextjs-fortune-site/src/app/omikuji/page.tsx:33 | when they do not, the page falls back to the first entry, unlike `selectByProbability`, which falls back to the last |
| ZodiacPageNext.Pick | nextjs-fortune-site/src/app/zodiac/page.tsx:69-73 | the message drawn is one of the list's |
| ZodiacPageNext.LuckyColor | nextjs-fortune-site/src/app/zodiac/page.tsx:77 | the first lucky item when it is a non-empty text, "金色" otherwise |
| ZodiacPageNext.ZodiacReading | nextjs-fortune-site/src/app/zodiac/page.tsx:63-82 | the title names the sign; level and aspects come from their lists; the lucky number is 1-9; the item is one of the sign's, or undefined when it has none |
| ZodiacPageNext.EveryMessageCanBeDrawn | nextjs-fortune-site/src/app/zodiac/page.tsx:69-73 | every level and message can be drawn |
| ZodiacPageNext.ZodiacPage.constructor | nextjs-fortune-site/src/app/zodiac/page.tsx:15-17 | select step, no sign, not loading |
| ZodiacPageNext.ZodiacPage.HandleSignSelect | nextjs-fortune-site/src/app/zodiac/page.tsx:19-21 | only the selected sign changes |
| ZodiacPageNext.ZodiacPage.HandleComplete | nextjs-fortune-site/src/app/zodiac/page.tsx:23-89 | a result is stored exactly when a sign is selected, and it is that sign's reading |
| ResultPage.CapHistory | nextjs-fortune-site/src/app/result/page.tsx:55-57 | the new entry comes first, and at most ten entries are kept |
| ResultPage.CapHistoryKeepsOrder | nextjs-fortune-site/src/app/result/page.tsx:55-57 | older entries follow in their order; only entries past the tenth place drop out |
| ResultPage.FullHistoryDropsOldest | nextjs-fortune-site/src/app/result/page.tsx:57 | with ten saved entries, the oldest drops out |
| ResultPage.SavedTwice | nextjs-fortune-site/src/app/result/page.tsx:55-57 | saving twice puts the second entry first and the first second |
| ResultPage.GetFortuneTypeInfo | nextjs-fortune-site/src/app/result/page.tsx:63-71 | a known type has its own title; any other gets "占い結果" |
| ResultPage.ResultView.constructor | nextjs-fortune-site/src/app/result/page.tsx:14-16 | no result, no type, loading |
| ResultPage.ResultView.LoadResult | nextjs-fortune-site/src/app/result/page.tsx:18-38 | without a type it returns while still loading; otherwise it keeps what parses and never removes the key |
| ResultPage.ResultView.Render | nextjs-fortune-site/src/app/result/page.tsx:73-103 | a spinner exactly while loading; "not found" without a truthy result or type; otherwise the result |
| ResultPage.ResultView.HandleSaveResult | nextjs-fortune-site/src/app/result/page.tsx:40-61 | nothing happens without a result and type; a stored history that fails to parse or is not a list throws and writes nothing; otherwise the capped history is written |
| ResultPage.RevisitShowsSameResult | nextjs-fortune-site/src/app/result/page.tsx:18-38 | the stored result is read, not taken, so two visits show the same view |
| ResultPage.NoTypeKeepsSpinner | nextjs-fortune-site/src/app/result/page.tsx:19-20 | without a `type` in the query the spinner never goes away |
| ResultPage.UnparseableIsNotFound | nextjs-fortune-site/src/app/result/page.tsx:28-35 | a stored text that does not parse leads to "not found" |

## Left out

- Rendering, CSS and animation (framer-motion, DOM classes and styles) are left out. So are the timers: each `setTimeout` or awaited delay is collapsed into the method that follows it. `OmikujiScript.OmikujiPage.FinishShake` stands for the shake timer, and the 500 ms stick delay is part of it.
- `fetch` and the asynchronous `loadJSON` are not modelled. `LoadFortuneData` takes what each load produced. `loadJSON` catches its own errors, so the `catch` in `loadFortuneData` that would load the defaults is never reached; the defaults are loaded only by `LoadDefaultData`.
- JSON text is not modelled as characters. Storage holds the parsed value of what was written, or marks text that does not parse.
- Floating-point numbers are modelled as exact reals. Rounding in the running probability sums of the omikuji draws and `selectByProbability` is not captured.
- The reversal probabilities (30% in the engine, 50% on the framework page) are not modelled. The coin outcomes are parameters.
- `calculateZodiacFortune` derives the day of the year from milliseconds. The model takes the day of the year as a parameter.
- Lookups that JavaScript would resolve through `Object.prototype` (a type named "constructor", say) are not modelled. Only the four fortune types and unknown names are distinguished.
- Text lengths count Unicode code points rather than UTF-16 code units (`truncateText`).
- `debounce`, `throttle`, `formatDate`, `delay`, the `storage` helper object of `lib/utils.ts`, and any use of `Intl` are not modelled; they are timing or presentation helpers.
- The framework site's omikuji and zodiac tables (`lib/data/omikuji.ts`, `lib/data/zodiac.ts`) are not part of this model. The pages take the table, or the sign, as a parameter.
- `OmikujiPageNext.OmikujiPage.HandleDraw`: requires a non-empty table, because the page reads `omikujiResults[0]`; the real table is never empty.
- `zodiac.js` and the framework site's form and selector components are not part of this model, and neither are the vanilla page wrappers that only forward to the engine and `goToResult` (`performTarotReading`, `performOmikujiReading`, `openOmikujiResult`, `performNumerologyReading` in the page scripts).
- `router.push` navigation after a result is stored, `alert` messages and `goHome` are not modelled.
- `MainScript.SessionStore.DisplayFortuneResult`: a stored `result` that is `null` is rendered as structured in the source (`typeof null === 'object'`), and would then throw. The model has no null payload.
- ResultPage.ResultView.HandleSaveResult: an empty history text, which the source treats as no history, is not told apart from other text that does not parse, because storage keeps no raw text.
- The initial disabled state of the vanilla start and calculate buttons comes from the HTML, which is not part of this model.
