# Bazi fortune-reading core in Dafny

This project models the computational core of a bazi (八字, "four pillars of
destiny") fortune-reading web application:

- **Lunar calendar** (`LunarCalendar`): the stem/branch tables, the solar to
  lunar conversion (the lunar-calendar library is a function parameter), the
  hour branch, the hour stem, the eight-character bazi string, validation,
  lunar-date display and the double-hour (时辰) information.
- **Cache keys** (`CacheKey`): `generateKey`, the md5 digest of the record's
  `JSON.stringify` text. The digest is a function parameter.
- **In-memory cache** (`MemoryCacheStore`): a `MemoryCache` class over an
  insertion-ordered map of entries. It covers expiry on read, eviction of the
  oldest entry when full, sweeping, statistics and clearing.
- **File cache** (`LocalCacheStore`): a `LocalCache` class over a directory
  listing and its files. Eviction keeps the newest files by modification time.
  A failed write is a boolean parameter.
- **Cache facade** (`CacheManager`): picks the backend once from the
  environment (serverless gets memory, anything else gets files) and routes
  every call to it.
- **AI service selection** (`AiService`): model choice from the environment,
  availability, fallback, the single retry of `callAI`, deployment detection
  and the status report.
- **Age stages** (`AgeStage`): age in completed years, the five life stages,
  their advice, neighbouring stages and the prompt text.
- **Professional analysis** (`BaziAnalysis`, `BaziEnhancer`): the five-element
  tally, dominant and weak elements, balance, the ten-gods tally, the grade,
  the text extractors, the fallback analysis and the request formatting.

Shared helpers: `Wrappers` (Option), `Environment` (the process environment as
a map), `Text` (integer rendering, padding, join/split, `indexOf`),
`CacheEntries` (the cache entry and expiry rule) and `Ranking` (a stable sort
with the JavaScript comparator semantics, top-n and filtering).

Behaviour of the code worth knowing before reading the model:

- Cache keys: a key depends on the insertion order of the record's fields.
  The code hashes `JSON.stringify(data)`, which writes string-named fields in
  insertion order (array-index names such as "1" come first, in numeric
  order). `CacheKey.FieldOrderMatters` proves that swapping two defined fields
  with non-index names changes the hashed text.
- Memory eviction: `set` evicts the oldest entry whenever the map is full, even
  when it then overwrites an existing key.
- File eviction: the file backend evicts by file modification time, not by the
  entry's creation timestamp. A rewrite therefore makes a file young again.
- Hour stem: the code's `getTimeGan` does not compute the traditional
  five-rat rule. See "Findings". The bazi string, `getBaziString` and
  `validateBazi` are modelled with the stem as written (`BaziString`); the
  string with the corrected stem is `BaziStringCorrected`.

## Model

| member | source | states |
|---|---|---|
| LunarCalendar.TablesAreSingleCharacters | src/lib/lunar-calendar.ts:24-25 | every heavenly stem and earthly branch is a single character without a space |
| LunarCalendar.TablesDistinct | src/lib/lunar-calendar.ts:24-25 | the stem and branch tables have no repeated entry, so `indexOf` is a bijection on them |
| LunarCalendar.MonthZhiFollowsCycle | src/lib/lunar-calendar.ts:30-32 | lunar month m (1..12) carries branch number m mod 12 |
| LunarCalendar.SolarToLunar | src/lib/lunar-calendar.ts:70-87 | the conversion fails exactly when the calendar library fails |
| LunarCalendar.SolarToLunarReadsBack | src/lib/lunar-calendar.ts:70-87 | year, month, day, leap flag and the six stem/branch characters are those the library reports, each stem and branch found at the library's index |
| LunarCalendar.SolarToLunarPillars | src/lib/lunar-calendar.ts:70-87 | a successful conversion yields six single-character pillars and a day stem from the stem table |
| LunarCalendar.TimeZhiIsDoubleHourCycle | src/lib/lunar-calendar.ts:37-42 | hour h in 0..23 falls in branch ((h+1)/2) mod 12, so 23 and 0 are 子; an hour outside the table gives 子 |
| LunarCalendar.HourBranchIndexFindsBranch | src/lib/lunar-calendar.ts:94-97 | the hour's branch is found in the branch table at the hour's branch index |
| LunarCalendar.TimeZhiValuesInKeyOrder | src/lib/lunar-calendar.ts:37-42 | `Object.values` of the hour map lists the 24 branches by numeric key, 0 first and 23 last |
| LunarCalendar.TimeZhiValuesIndex | src/lib/lunar-calendar.ts:105-112 | the `indexOf` the code takes in that list is 0 for 子 and 2b-1 for branch b otherwise |
| LunarCalendar.TimeGanOverIndices | src/lib/lunar-calendar.ts:105-113 | the code's hour stem is the stem at the truncated remainder of (2·dayIndex + hourIndex) by 10, undefined when that is out of range |
| LunarCalendar.TimeGanAsWrittenByIndex | src/lib/lunar-calendar.ts:105-113 | the hour stem as written, expressed through the day-stem index and the branch index |
| LunarCalendar.AsWrittenAgreement | src/lib/lunar-calendar.ts:105-113 | for a known day stem the code's index lies in 0..9 and equals (2d+b) mod 10 exactly for branches 子, 丑 and 亥 |
| LunarCalendar.TimeGanAgreesOnlyAtZiChouHai | src/lib/lunar-calendar.ts:105-113 | the hour stem as written agrees with the five-rat rule exactly when the hour's branch index is 0, 1 or 11 |
| LunarCalendar.BranchOfHour | src/lib/lunar-calendar.ts:94-97 | the hour's branch is 子, 丑 or 亥 exactly for branch indices 0, 1 and 11 |
| LunarCalendar.TimeGanReferenceCase | src/lib/lunar-calendar.ts:105-113 | at 07:xx on an 乙 day the code gives 癸 where the five-rat rule gives 庚 |
| LunarCalendar.TimeGanReferenceCaseBreaksParity | src/lib/lunar-calendar.ts:105-113 | that code result pairs a yin stem with the yang branch 辰, which no sexagenary pillar does |
| LunarCalendar.TimeGanUnknownDayStem | src/lib/lunar-calendar.ts:105-113 | for a day stem outside the table the code's stem is undefined only for 子 and 丑 hours |
| LunarCalendar.TimeGanUnknownDayStemExample | src/lib/lunar-calendar.ts:105-113 | day stem "X" at 03:xx gets the stem 乙 from the code, and none from the corrected rule |
| LunarCalendar.HourStemOverIndex | src/lib/lunar-calendar.ts:105-113 | the corrected hour stem is the stem at (2·dayIndex + branchIndex) mod 10, absent when the day stem is unknown |
| LunarCalendar.HourStemOfStem | src/lib/lunar-calendar.ts:105-113 | for day stem number d the corrected hour stem is stem (2d + b) mod 10 |
| LunarCalendar.HourStemDefined | src/lib/lunar-calendar.ts:105-113 | the corrected hour stem is absent exactly when the day stem is not a stem, and otherwise is a stem |
| LunarCalendar.HourPillarParity | src/lib/lunar-calendar.ts:105-113 | the corrected hour stem and the hour branch always have the same parity, as every sexagenary pillar does |
| LunarCalendar.AsWrittenTokenParts | src/lib/lunar-calendar.ts:105-113 | the stem as written is a table stem or "undefined", and always a stem for a real day stem |
| LunarCalendar.BaziStringIsJoin | src/lib/lunar-calendar.ts:128-133 | the bazi string, with `getTimeGan`'s stem as written, is the four pillar tokens joined by single spaces |
| LunarCalendar.BaziStringSplits | src/lib/lunar-calendar.ts:128-133 | splitting that string on spaces gives back the four pillar tokens |
| LunarCalendar.PillarTokensHaveTwoCharacters | src/lib/lunar-calendar.ts:128-133 | for a converted date each of its four tokens, the as-written hour token included, has two characters |
| LunarCalendar.BaziStringCorrectedSplits | src/lib/lunar-calendar.ts:128-133 | the string with the five-rat hour stem also splits into its four tokens, each of two characters for a converted date |
| LunarCalendar.ReferenceBazi | src/lib/lunar-calendar.ts:128-133 | a 丁巳 year, 丁未 month, 乙丑 day at 07:xx gives "丁巳 丁未 乙丑 癸辰" as written and "丁巳 丁未 乙丑 庚辰" with the five-rat rule |
| LunarCalendar.ValidateReading | src/lib/lunar-calendar.ts:157-163 | for a successful conversion the string `validateBazi` builds always splits into four two-character parts, so the completeness check never rejects it |
| LunarCalendar.ValidateBaziCharacterized | src/lib/lunar-calendar.ts:138-176 | valid exactly when the library succeeds with non-zero year, month and day; a library failure is a calculation error and a zero field a lunar-date error; a valid result carries the converted date and the as-written bazi string of four two-character pillars |
| LunarCalendar.MonthNames | src/lib/lunar-calendar.ts:118-123 | month names come from the month-name table for 1..12 and default to 正月 otherwise; each has two characters and none starts with 闰 |
| LunarCalendar.MonthNamesDistinct | src/lib/lunar-calendar.ts:56-59 | the twelve month names are pairwise different |
| LunarCalendar.FormatSplitsAtYear | src/lib/lunar-calendar.ts:118-123 | the display is the year, 年, then an optional 闰, the month name, the day and 日 |
| LunarCalendar.LeapMark | src/lib/lunar-calendar.ts:118-123 | the text after the year starts with 闰 exactly for a leap month |
| LunarCalendar.FormatLunarDateInjective | src/lib/lunar-calendar.ts:118-123 | two lunar dates with months in 1..12 that display alike have the same year, leap flag, month and day |
| LunarCalendar.BranchRange | src/lib/lunar-calendar.ts:181-216 | branch b's range starts at hour (2b+23) mod 24 and ends at (2b+1) mod 24, has a description, and its name is the branch plus 时 |
| LunarCalendar.HourInBranchRange | src/lib/lunar-calendar.ts:181-216 | an hour in 0..23 belongs to branch b exactly when it lies in b's cyclic range |
| LunarCalendar.TimeInfoOfBranch | src/lib/lunar-calendar.ts:181-216 | the time information names the hour's branch and carries that branch's range and description |
| LunarCalendar.TimeInfoConsistent | src/lib/lunar-calendar.ts:181-216 | the reported range spans two hours, and exactly the hours inside it map to the reported branch |
| CacheKey.Written | src/lib/memory-cache.ts:33-36 | the written fields are those that are not undefined, in record order |
| CacheKey.EscapeThenQuote | src/lib/memory-cache.ts:33-36 | a JSON string literal ends at its first unescaped quote, so the escaped text and what follows it are both recovered |
| CacheKey.MemberThen | src/lib/memory-cache.ts:33-36 | a `"name":value` member followed by a comma or brace determines the name, the value and the rest |
| CacheKey.RestInjective | src/lib/memory-cache.ts:33-36 | the comma-separated member list with its closing brace determines the fields |
| CacheKey.StringifyDeterminesFields | src/lib/memory-cache.ts:33-36 | two records stringify alike exactly when their defined fields are the same, in the same order |
| CacheKey.KeyOfWrittenFields | src/lib/local-cache.ts:40-43 | records with the same defined fields in the same order get the same key whatever the digest; undefined fields never change a key |
| CacheKey.FieldOrderMatters | src/lib/local-cache.ts:40-43 | swapping two defined fields with different names, neither an array index, changes the hashed text |
| CacheEntries.NewEntryLifetime | src/lib/memory-cache.ts:41-48 | a new entry has no hits, the write time and a ttl of ttlHours (default 24) hours in milliseconds, and is expired exactly when more than that has passed |
| CacheEntries.HitKeepsEntry | src/lib/memory-cache.ts:62-82 | counting a hit adds one to the hit count and changes neither the data, the timestamp, the ttl nor expiry |
| CacheEntries.LowIsLowerBound | src/lib/memory-cache.ts:138-179 | the running minimum is at most every timestamp |
| CacheEntries.LowAttained | src/lib/memory-cache.ts:138-179 | the running minimum is its start value or one of the timestamps |
| CacheEntries.HighIsUpperBound | src/lib/memory-cache.ts:138-179 | the running maximum is at least every timestamp |
| CacheEntries.HighAttained | src/lib/memory-cache.ts:138-179 | the running maximum is its start value or one of the timestamps |
| CacheEntries.MinOfIsMinimum | src/lib/local-cache.ts:219-258 | `Math.min` of a non-empty list is at most each element and is one of them |
| CacheEntries.MaxOfIsMaximum | src/lib/local-cache.ts:219-258 | `Math.max` of a non-empty list is at least each element and is one of them |
| MemoryCacheStore.OldestIndexIsFirstMinimum | src/lib/memory-cache.ts:97-112 | the scan finds nothing exactly when no timestamp is below the bound, and otherwise finds the first minimal timestamp |
| MemoryCacheStore.OldestKeyIsOldest | src/lib/memory-cache.ts:97-112 | the chosen key is present, not "", older than now, no younger than any entry and strictly older than every key before it; without a "" key, nothing is chosen exactly when no entry is older than now |
| MemoryCacheStore.ScanOldest | src/lib/memory-cache.ts:97-112 | the loop over the map returns the key at the first minimal timestamp below now |
| MemoryCacheStore.UnexpiredMembers | src/lib/memory-cache.ts:117-133 | the keys kept by the sweep are exactly the listed keys whose entries have not expired |
| MemoryCacheStore.Live | src/lib/memory-cache.ts:117-133 | the live map holds exactly the unexpired entries, unchanged |
| MemoryCacheStore.Sweep | src/lib/memory-cache.ts:117-133 | the sweep loop keeps the unexpired keys in order and counts the removed ones |
| MemoryCacheStore.SetThenLookup | src/lib/memory-cache.ts:41-82 | reading a key right after writing it returns the data exactly while the ttl has not elapsed |
| MemoryCacheStore.HitThenLookup | src/lib/memory-cache.ts:62-82 | counting a hit does not change what a later read returns |
| MemoryCacheStore.Summarize | src/lib/memory-cache.ts:138-179 | the statistics loop reports the entry count, the hit total and the oldest and newest timestamps, the latter present together and ordered |
| MemoryCacheStore.NearCapacityInIntegers | src/lib/memory-cache.ts:225-227 | the 90% test is 10·size ≥ 9·maxEntries, and a cache below it is below capacity |
| MemoryCacheStore.MemoryCache.constructor | src/lib/memory-cache.ts:21-23 | a new cache is empty and keeps its capacity |
| MemoryCacheStore.MemoryCache.Set | src/lib/memory-cache.ts:41-57 | when full, the oldest entry is evicted first; the key then maps to a fresh entry, keeping its place or going last; the size stays within a capacity of at least one only when it was within it, no key is "" and every entry is older than now: otherwise the scan finds no victim and the map grows past capacity |
| MemoryCacheStore.MemoryCache.Get | src/lib/memory-cache.ts:62-82 | returns the lookup result; an expired entry is deleted and a live one counts a hit; nothing else changes |
| MemoryCacheStore.MemoryCache.Delete | src/lib/memory-cache.ts:87-92 | the key is gone from the map and the order; a missing key changes nothing |
| MemoryCacheStore.MemoryCache.DeleteOldest | src/lib/memory-cache.ts:97-112 | removes the oldest key when one is found and otherwise changes nothing |
| MemoryCacheStore.MemoryCache.Cleanup | src/lib/memory-cache.ts:117-133 | keeps exactly the unexpired entries in order and returns how many were removed |
| MemoryCacheStore.MemoryCache.GetStats | src/lib/memory-cache.ts:138-179 | reports the count, hit total and timestamp bounds of the current entries without changing them |
| MemoryCacheStore.MemoryCache.IsNearCapacity | src/lib/memory-cache.ts:225-227 | true exactly when ten times the size reaches nine times the capacity |
| MemoryCacheStore.MemoryCache.Clear | src/lib/memory-cache.ts:204-209 | empties the cache and returns the number of entries it held |
| LocalCacheStore.FileNameOfKey | src/lib/local-cache.ts:48-50 | a key's file name ends in .json and different keys get different files |
| LocalCacheStore.JsonNamesMembers | src/lib/local-cache.ts:173-176 | the listing filter keeps exactly the names ending in .json |
| LocalCacheStore.VictimsAreOldest | src/lib/local-cache.ts:173-214 | eviction removes exactly count − maxEntries distinct JSON files (none when within capacity), each no newer than any file kept |
| LocalCacheStore.OldestFirst | src/lib/local-cache.ts:193-195 | the first n JSON files in mtime order are distinct listed files, none written later than a JSON file outside them |
| LocalCacheStore.SweptMembers | src/lib/local-cache.ts:132-168 | the sweep removes exactly the JSON files that are unreadable or expired |
| LocalCacheStore.DropMembers | src/lib/local-cache.ts:132-168 | after removal a name is listed exactly when it was listed and not removed |
| LocalCacheStore.StatsBracketFiles | src/lib/local-cache.ts:219-258 | the reported oldest and newest times bound every JSON file's mtime and are each some file's mtime |
| LocalCacheStore.UnlinkAll | src/lib/local-cache.ts:198-205 | unlinking a list of names removes exactly those files and keeps every other file unchanged |
| LocalCacheStore.SweepDir | src/lib/local-cache.ts:132-168 | the cleanup loop removes exactly the doomed files and counts them |
| LocalCacheStore.ClearDir | src/lib/local-cache.ts:283-308 | the clear loop removes exactly the JSON files and counts them |
| LocalCacheStore.Summarize | src/lib/local-cache.ts:219-258 | the statistics count the JSON files and report the least and greatest mtime, or none for an empty directory |
| LocalCacheStore.LocalCache.constructor | src/lib/local-cache.ts:23-25 | the cache starts over the given directory contents and capacity |
| LocalCacheStore.LocalCache.Set | src/lib/local-cache.ts:55-76 | a successful write stores a fresh entry under the key's file and then evicts the oldest files over capacity; a failed write changes nothing |
| LocalCacheStore.LocalCache.CheckAndCleanOldest | src/lib/local-cache.ts:173-214 | deletes exactly the eviction victims and leaves every other file unchanged |
| LocalCacheStore.LocalCache.Get | src/lib/local-cache.ts:81-112 | a missing file gives nothing; an unreadable or expired file, or a failed hit write-back, is deleted and gives nothing; otherwise the data is returned and the file rewritten with one more hit |
| LocalCacheStore.LocalCache.Delete | src/lib/local-cache.ts:117-127 | the key's file is gone; a missing file changes nothing |
| LocalCacheStore.LocalCache.Cleanup | src/lib/local-cache.ts:132-168 | removes exactly the unreadable and expired JSON files and returns their number |
| LocalCacheStore.LocalCache.Clear | src/lib/local-cache.ts:283-308 | removes exactly the JSON files, keeps the others, and returns the number removed |
| LocalCacheStore.LocalCache.GetStats | src/lib/local-cache.ts:219-258 | reports the JSON file count and the least and greatest mtime |
| CacheManager.ServerlessMarkers | src/lib/cache-manager.ts:7-12 | a defined but empty K_SERVICE already means serverless; VERCEL=0 alone does not; an empty environment is not serverless |
| CacheManager.Choose | src/lib/cache-manager.ts:17-35 | the memory backend is chosen exactly in a serverless environment |
| CacheManager.Cache.GetCacheInstance | src/lib/cache-manager.ts:17-35 | the first call chooses from the environment and remembers it; later calls return the remembered backend |
| CacheManager.Cache.Get | src/lib/cache-manager.ts:39 | a read goes to the chosen backend only, with that backend's answer and effect: a memory lookup with expiry and hit count, or the file backend's missing, doomed, failed-rewrite and hit cases |
| CacheManager.Cache.Set | src/lib/cache-manager.ts:40 | a write goes to the chosen backend only: memory evicts when full and stores a fresh entry, files write the entry at mtime now and evict the oldest over capacity, a failed write changes nothing; an omitted ttl reaches the backend as undefined and becomes its 24 hours |
| CacheManager.Cache.Delete | src/lib/cache-manager.ts:41 | a delete goes to the chosen backend only, which loses exactly the key (or its file) and keeps everything else; the other backend is unchanged |
| CacheManager.Cache.Cleanup | src/lib/cache-manager.ts:43 | a sweep goes to the chosen backend only, which keeps exactly its unexpired entries or files, and returns the number removed |
| CacheManager.Cache.Clear | src/lib/cache-manager.ts:44 | a clear goes to the chosen backend only: memory is emptied, or exactly the JSON files are removed and the other files kept; the count is what was removed, and the other backend is unchanged |
| CacheManager.Cache.GetStats | src/lib/cache-manager.ts:45 | the statistics come from the chosen backend and are its exact figures: entry count, hits and timestamp bounds, or JSON file count and mtime bounds |
| AiService.CurrentModel | src/lib/ai-service.ts:21-36 | AI_MODEL set to gemini or deepseek decides; otherwise Gemini exactly when GOOGLE_API_KEY is set |
| AiService.AutomaticChoiceAvailable | src/lib/ai-service.ts:21-50 | without an explicit AI_MODEL, the automatic choice is available whenever any model is |
| AiService.AvailableModels | src/lib/ai-service.ts:55-67 | lists exactly the available models, Gemini before DeepSeek |
| AiService.FallbackModel | src/lib/ai-service.ts:72-83 | returns an available model other than the primary, and none exactly when there is no such model |
| AiService.CallAI | src/lib/ai-service.ts:88-130 | at most two distinct available models are called, the selected one first when available; when that call succeeds it is the only one, and when it fails a second model is called exactly when another is available; the reply is text exactly when some call succeeded; a failure rethrows the first call's error, or reports that no model is configured |
| AiService.DetectEnvironment | src/lib/ai-service.ts:163-174 | Vercel exactly when VERCEL=1; Huawei exactly when not Vercel and HUAWEI_CLOUD=1 or production without VERCEL; local otherwise |
| AiService.ShouldUseCache | src/lib/ai-service.ts:179-189 | caching is off exactly on Vercel |
| AiService.NoCacheMeansMemoryBackend | src/lib/ai-service.ts:179-189 | wherever caching is off, the cache facade would pick the memory backend |
| AiService.VercelVariableBlocksHuawei | src/lib/ai-service.ts:163-174 | in production a VERCEL value other than 1 still rules out Huawei, giving local |
| AiService.GetAIServiceStatus | src/lib/ai-service.ts:194-208 | the status reports the environment, the current model and the cache decision; each key flag is that model's availability, and the list holds exactly the available models, Gemini first |
| AgeStage.StageOf | src/lib/age-stage-analyzer.js:4-10 | each stage has a name, a focus and a non-empty age range |
| AgeStage.KeyIndex | src/lib/age-stage-analyzer.js:4-10 | `indexOf` finds each stage at its position in the stage order |
| AgeStage.StagesContiguous | src/lib/age-stage-analyzer.js:4-10 | the stages cover ages 0 to 150 without gap or overlap |
| AgeStage.AgeIsCompletedYears | src/lib/age-stage-analyzer.js:23-28 | the age is the number of birthdays reached by today: the last one is not after today and the next one is |
| AgeStage.StageFound | src/lib/age-stage-analyzer.js:31-37 | a stage is found exactly for ages 0..150, and it is the stage whose range holds the age |
| AgeStage.FindStage | src/lib/age-stage-analyzer.js:31-37 | the loop finds the first stage holding the age and records the age |
| AgeStage.CalculateAgeStage | src/lib/age-stage-analyzer.js:18-49 | the result carries the age, its stage when there is one, that stage's advice and its neighbouring stages |
| AgeStage.StageAdvice | src/lib/age-stage-analyzer.js:56-98 | there is advice exactly when there is a stage, and it is that stage's advice |
| AgeStage.NextStage | src/lib/age-stage-analyzer.js:105-117 | there is a next stage exactly for a stage other than the last |
| AgeStage.PreviousStage | src/lib/age-stage-analyzer.js:124-136 | there is a previous stage exactly for a stage other than the first |
| AgeStage.NextThenPrevious | src/lib/age-stage-analyzer.js:105-136 | the next stage starts one year after the current one ends, and its previous stage is the current one |
| AgeStage.PreviousThenNext | src/lib/age-stage-analyzer.js:105-136 | the previous stage ends one year before the current one starts, and its next stage is the current one |
| AgeStage.AgePromptEmpty | src/lib/age-stage-analyzer.js:143-169 | the prompt is empty exactly when there is no stage, and otherwise starts with its heading |
| Ranking.SortByOrders | src/lib/cantian-bazi-enhancer.js:164-168 | the sort orders by key and is a permutation |
| Ranking.SortByStable | src/lib/cantian-bazi-enhancer.js:164-168 | the sort keeps the input order among equal keys |
| Ranking.TopIsBest | src/lib/cantian-bazi-enhancer.js:164-168 | no element left out of the top n has a smaller key than one taken |
| Ranking.TopFromInput | src/lib/cantian-bazi-enhancer.js:164-168 | the top n are distinct input elements in key order |
| Ranking.KeepMembers | src/lib/cantian-bazi-enhancer.js:164-172 | the filter keeps exactly the elements satisfying the predicate |
| BaziAnalysis.TallyTotal | src/lib/cantian-bazi-enhancer.js:149-163 | the element total is the number of present stem and branch slots, at most two per pillar |
| BaziAnalysis.CountPillars | src/lib/cantian-bazi-enhancer.js:149-160 | the counting loop produces the element tally of the pillars |
| BaziAnalysis.CountElements | src/lib/cantian-bazi-enhancer.js:149-163 | the tally of the four pillars totals at most eight |
| BaziAnalysis.DominantElementsOccur | src/lib/cantian-bazi-enhancer.js:164-168 | the dominant elements are up to two distinct elements that occur |
| BaziAnalysis.DominantElementsDescending | src/lib/cantian-bazi-enhancer.js:164-168 | the dominant elements come in non-increasing count order |
| BaziAnalysis.DominantElementsBest | src/lib/cantian-bazi-enhancer.js:164-168 | no occurring element left out outnumbers a dominant one |
| BaziAnalysis.DominantElementsStable | src/lib/cantian-bazi-enhancer.js:164-168 | ties keep the order metal, wood, water, fire, earth |
| BaziAnalysis.WeakElementsSpec | src/lib/cantian-bazi-enhancer.js:170-172 | the weak elements are exactly those with count zero and are never dominant |
| BaziAnalysis.SpreadIsRange | src/lib/cantian-bazi-enhancer.js:378-389 | the spread is the largest difference between two element counts |
| BaziAnalysis.BalanceLevel | src/lib/cantian-bazi-enhancer.js:378-389 | spread at most 1 is the first label and spread above 4 the last |
| BaziAnalysis.BalanceLevelMonotone | src/lib/cantian-bazi-enhancer.js:378-389 | a larger spread never gives a more balanced label |
| BaziAnalysis.BalanceNeverSkewed | src/lib/cantian-bazi-enhancer.js:378-389 | the balance is never 偏强 or 偏弱, the labels the health advice tests for |
| BaziAnalysis.WuxingText | src/lib/cantian-bazi-enhancer.js:394-412 | the element text opens with the balance label |
| BaziAnalysis.ExtractWuxingAnalysis | src/lib/cantian-bazi-enhancer.js:145-182 | distribution, total, dominant and weak elements, balance and text are those of the pillars' tally |
| BaziAnalysis.TallyCounts | src/lib/cantian-bazi-enhancer.js:187-205 | the ten-gods tally lists each god once, in first-seen order, with its number of occurrences |
| BaziAnalysis.TallyPillars | src/lib/cantian-bazi-enhancer.js:187-205 | the tally loop counts the stem god and every non-empty hidden-stem god of each pillar |
| BaziAnalysis.DominantGodsSpec | src/lib/cantian-bazi-enhancer.js:211-214 | the dominant gods are up to three tallied gods, listed by descending count, with no omitted god counted more often |
| BaziAnalysis.DominantGodsStable | src/lib/cantian-bazi-enhancer.js:211-214 | gods of equal count keep their first-seen tally order |
| BaziAnalysis.ShiShenTextFixed | src/lib/cantian-bazi-enhancer.js:417-435 | the fixed no-gods text appears exactly when no god was tallied |
| BaziAnalysis.ExtractShiShenAnalysis | src/lib/cantian-bazi-enhancer.js:187-217 | the distribution, the top three gods and the text are those of the pillars' tally |
| BaziAnalysis.GradeRange | src/lib/cantian-bazi-enhancer.js:469-501 | the score stays within 70..100, so the grade is one of the three top grades |
| BaziAnalysis.ProfessionalGrade | src/lib/cantian-bazi-enhancer.js:469-501 | the grade is that of 70 plus the balance, star and relation bonuses |
| BaziEnhancer.FormatReadsBack | src/lib/cantian-bazi-enhancer.js:57-66 | the request date text reads back to the date and time it was made from |
| BaziEnhancer.FormatInjective | src/lib/cantian-bazi-enhancer.js:57-66 | different valid date-times give different request texts |
| BaziEnhancer.GenderCode | src/lib/cantian-bazi-enhancer.js:25 | the gender code is 1 exactly for "male" and 2 otherwise |
| BaziEnhancer.DefaultExactlyWhenNothingFires | src/lib/cantian-bazi-enhancer.js:222-259 | an extractor gives its default text exactly when none of its rules fires |
| BaziEnhancer.SplitsIntoFired | src/lib/cantian-bazi-enhancer.js:222-259 | when a rule fires, the text splits back into the fired rules' sentences |
| BaziEnhancer.TraitsOf | src/lib/cantian-bazi-enhancer.js:222-259 | the personality text is the default exactly when no dominant element is present and none of 正官, 正财, 食神 is dominant |
| BaziEnhancer.CurrentLuck | src/lib/cantian-bazi-enhancer.js:284-293 | the current luck period contains the year, and there is none exactly when no period does |
| BaziEnhancer.CurrentLuckIsFirst | src/lib/cantian-bazi-enhancer.js:284-293 | no earlier period contains the year |
| BaziEnhancer.CareerOf | src/lib/cantian-bazi-enhancer.js:264-296 | the career text is the default exactly when none of 正官, 七杀, 正财, 偏财 is dominant and no luck period holds the year |
| BaziEnhancer.CareerNamesCurrentLuck | src/lib/cantian-bazi-enhancer.js:284-293 | when a luck period holds the year, the career text ends with that period's sentence |
| BaziEnhancer.RelationshipOf | src/lib/cantian-bazi-enhancer.js:301-338 | the relationship text is the default exactly when there is no 桃花 star and no spouse star for the gender is dominant |
| BaziEnhancer.HealthOf | src/lib/cantian-bazi-enhancer.js:343-373 | the health text is the default exactly when no element is weak and the balance is neither 偏强 nor 偏弱 |
| BaziEnhancer.HealthDefaultWhenAllPresent | src/lib/cantian-bazi-enhancer.js:343-373 | the health text is the default exactly when all five elements occur |
| BaziEnhancer.OrUnknown | src/lib/cantian-bazi-enhancer.js:506-523 | a missing field reads 未知 and any other value is kept |
| BaziEnhancer.PillarsTextSplits | src/lib/cantian-bazi-enhancer.js:506-523 | the fallback pillar text splits back into the four pillars |
| BaziEnhancer.FallbackAnalysis | src/lib/cantian-bazi-enhancer.js:506-523 | the fallback is non-professional with an unknown day master and the ordinary grade, which is not one of the professional grades; it has no gender, no ten-gods analysis and no raw record, and a fixed element note |
| BaziEnhancer.ParseProfessionalResult | src/lib/cantian-bazi-enhancer.js:71-140 | the analysis holds the record's basic facts with its gender and day master, the full element analysis and the ten-gods analysis of its pillars, the personality, career, relationship and health texts, a top grade of 70 plus the bonuses, and the record itself |
| BaziEnhancer.EnhanceBaziAnalysis | src/lib/cantian-bazi-enhancer.js:16-52 | the analysis is professional exactly when the calculator answers to the formatted request, and is then the parsed analysis of its record; otherwise it is the fallback |

## Left out

- Logging, the `console` calls and the emoji messages are not modelled.
- The periodic cleanup timers (`startCleanup`, `stopCleanup`) are not modelled, because they are scheduling. `Cleanup` models what each tick does.
- `Date.now()` is the parameter `now`, and the date in `calculateAgeStage` is the parameter `today`.
- The lunar-calendar library and the external bazi calculator are function parameters. Their answers are not modelled; a thrown error is `None`.
- The md5 digest is a function parameter. Its collision resistance is not modelled.
- Model calls are a function parameter. Network access, API keys and the model prompts are not modelled.
- `getMemoryUsage`, the `totalSize`, `memoryUsage` and `hitRate` statistics are not modelled. They are byte-size estimates over `JSON.stringify` of arbitrary payloads.
- The exported convenience objects (`cacheManager`) and the facade's `stopCleanup` and `generateKey` only forward. The key is the same in both backends.
- `generateProfessionalGuidance` is not modelled. It only assembles prompt text.
- Cache payloads are strings. Arbitrary JSON values are not modelled.
- CacheKey.Stringify covers flat records of strings, integers and undefined. It escapes only `"` and `\`; control-character escapes, nested objects, floats and other value kinds are not modelled.
- Text parsing of dates and times is not modelled: hours arrive as integers, and time zones and invalid dates are not modelled.
- Element names outside the five known ones are not modelled; the element tally takes typed elements.
- The calculator's record is assumed well-formed. The `catch` of `parseProfessionalResult`, reached on a malformed record (a null entry of the clash-and-combination table, say), is not modelled. A calculator reply is either present or absent.
- ParseProfessionalResult: `fourPillars`, `lifePalace`, `shenSha`, `daYun` and `xingChongHeHui` copy record fields unchanged and are not separate fields of the analysis; the pillars, stars, luck periods and combinations they copy are in the raw record, the life palace (命宫, 身宫, 胎元, 胎息) is not modelled.
- The directory listing keeps the order in which files were created: a new name goes last. `readdirSync`'s real order is the file system's. That order breaks mtime ties in eviction, so the victims among files of equal mtime may differ.
- CacheKey.Stringify: writes fields in the given order. For records whose field names are array indices, JavaScript enumerates those names first in numeric order; that reordering is not modelled, and the callers' records have identifier names.
- File-system errors on `readdirSync` in cleanup, clear and statistics are not modelled. An `unlinkSync` that fails is not modelled either; every unlink succeeds.
- CacheEntries.NewEntry: the ttl is a whole number of hours. The code multiplies a JavaScript number, so a fractional ttl such as 0.5 hours, and the rounding of that product, are not modelled. The only caller passes 24.
- MemoryCacheStore.MemoryCache.Set: takes a whole-hour ttl, as `NewEntry` does.
- LocalCacheStore.LocalCache.Set: takes a whole-hour ttl, as `NewEntry` does.
- CacheManager.Cache.Set: takes a whole-hour ttl, as `NewEntry` does.
- LocalCacheStore.LocalCache.Set: only a failed write is modelled as an error; a failure inside eviction is not.

## Findings

| source | as written | input that shows it | evidently intended | confidence | as-written member | corrected member |
|---|---|---|---|---|---|---|
| src/lib/lunar-calendar.ts:105-113 | the hour index is `indexOf` in the values of the hour map, ordered by hour key. That index is 0 for 子 and 2b-1 for branch b otherwise, so the stem is (2·day + index) mod 10 | day stem 乙, hour 07 (辰): gives 癸, a yin stem on a yang branch | the five-rat rule, stem (2·day + branch) mod 10, giving 庚 | high, not executed | LunarCalendar.TimeGanReferenceCase | LunarCalendar.HourPillarParity |
| src/lib/lunar-calendar.ts:105-113 | an unknown day stem gives index −1. The truncated remainder is then negative only for 子 and 丑, so other hours still get a stem | day stem "X", hour 03 (寅): gives 乙 | no stem for an unknown day stem | high, not executed | LunarCalendar.TimeGanUnknownDayStem | LunarCalendar.HourStemDefined |
