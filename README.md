# Weekly content generator — a Dafny model

This project models the generator behind the "generate next week" endpoint
(`src/app/api/generate-week/route.ts`). From a company's personas,
subreddits and keywords, the latest stored week and the most recent posts,
it produces three things:

- the next week row;
- `max(1, posts_per_week ?? 3)` posts;
- four comments per post, in a fixed thread shape.

Along the way it rotates subreddits (with weekly caps), authors, keywords
and titles.

The model is pure Dafny with no store. The rows the endpoint loads are
inputs, and so are the current time and the id the store gives the new week
row. Randomness is an input too: `Random.Stream` maps each draw number to a
value in [0, 1). The helpers read that stream from a cursor, one value per
`Math.random()` call, in the handler's order. Every property below therefore
holds for every sequence of random values. `Random.RandIntCoversRange` and
`Random.SampleCoversPool` show that every value a single `randInt` or
`sample` draw can take is still possible in the model.

Time is an integer count of minutes since 1970-01-01T00:00Z, and a date is a
count of days. The weekday is `(day + 4) % 7`, because the epoch was a
Thursday. Texts that are content assets stay opaque:

- the six title templates are a parameter that must have six entries;
- a body is the index of its template plus the keyword texts filled into it;
- the five tone lines, the clarifying question and the author reply are
  enumeration values.

Modules (one file each):

- `Options`: option and result types.
- `Dates`: the week's Monday and whole-day shifts.
- `Random`: `randInt`, `sample`, `find`, `shuffle` and `sampleManyUnique`.
- `Ids`: the decimal rendering of post and comment ids, and proof that ids
  never collide.
- `Tones`: `tone` and `commentLine`.
- `Entities`: the records, plus what the recent posts and the posts built so
  far determine.
- `Selection`: the rotation state and the per-post picks.
- `Generator`: week numbering, one loop iteration (`GeneratePost`), the
  loop (`GenerateWeek`) and lemmas that span a whole batch.

Behaviour of the code worth noting, which the model reproduces:

- Commenters have no fallback. The commenter pools are the personas other
  than the author, minus the commenters already drawn (route.ts:246-249).
  When such a pool is empty, `sample` returns `undefined`, and the later
  `tone(cNPersona.bio)` throws (route.ts:269-271). The model returns
  `Failure(TooFewPersonas)` exactly when fewer than four distinct persona
  ids exist.
- `sampleManyUnique` stops when its copy runs empty (route.ts:42-44). A
  keyword pool with a single keyword therefore gives one keyword, even
  though `randInt(2, 3)` asks for two or three (route.ts:219-220).
- A missing `posts_per_week` defaults to 3 (route.ts:170).
- A missing persona bio is read as the empty text (route.ts:59).
- A failed read of the latest week, or of the recent posts, is not an
  error: the code reads it as "no prior week" or "no history"
  (route.ts:104-115, 165-168). In the model these are simply the inputs `None`
  and `[]`.

## Model

| member | source | states |
|---|---|---|
| Dates.StartOfWeekMonday | src/app/api/generate-week/route.ts:10-18 | the result is a Monday at 00:00 UTC, no later than the input and less than seven days before it |
| Dates.MondayIsUnique | src/app/api/generate-week/route.ts:10-18 | any Monday midnight in the seven days up to `t` equals `StartOfWeekMonday(t)`, so the result is the Monday of `t`'s week |
| Dates.StartOfWeekIdempotent | src/app/api/generate-week/route.ts:10-18 | taking the Monday of a Monday changes nothing |
| Dates.AddDays | src/app/api/generate-week/route.ts:20-24 | shifting by `n` days moves the date by `n` and keeps the time of day |
| Generator.MissingPools | src/app/api/generate-week/route.ts:99 | the inputs are complete exactly when personas, subreddits and keywords are all non-empty |
| Generator.NextWeek | src/app/api/generate-week/route.ts:111-119 | with no stored week, the result is week 1 starting on the Monday of the week that holds `now`; otherwise its number is the latest number (missing reads as 0) plus 1 and it starts 7 days after the latest start |
| Generator.WeekRunIsContiguous | src/app/api/generate-week/route.ts:111-119 | successive runs from an empty store number their weeks 1, 2, 3, … and start them on Mondays exactly 7 days apart |
| Entities.Cap | src/app/api/generate-week/route.ts:198 | a subreddit's weekly cap is its `max_posts_per_week`, or 999 when that is unset |
| Entities.RecentTitles | src/app/api/generate-week/route.ts:165 | the recent titles are exactly the titles of the recent posts |
| Entities.RecentKeywordIds | src/app/api/generate-week/route.ts:166 | an id is a recent keyword id iff some recent post lists it (a post with no list contributes none) |
| Entities.TopRecentAuthors | src/app/api/generate-week/route.ts:211 | the avoided authors are the authors of the first `min(3, n)` recent posts, in order |
| Entities.KeywordIdsOf | src/app/api/generate-week/route.ts:242 | `chosen.map(k => k.id)`: one id per keyword, in order |
| Entities.KeywordTextsOf | src/app/api/generate-week/route.ts:222 | `chosen.map(k => k.keyword)`: one text per keyword, in order |
| Entities.KeywordsOfParts | src/app/api/generate-week/route.ts:222-242 | pairing a post's keyword ids with its keyword texts position by position gives back the chosen keywords |
| Entities.PostsPerWeek | src/app/api/generate-week/route.ts:170 | the post count is at least 1, defaults to 3 when unset, and is the configured value when that is at least 1 |
| Random.RandInt | src/app/api/generate-week/route.ts:31-33 | `floor(u * (max - min + 1)) + min` lies in [min, max] for every `u` in [0, 1) |
| Random.RandIntCoversRange | src/app/api/generate-week/route.ts:31-33 | every integer in [min, max] is the result for some random value |
| Random.Sample | src/app/api/generate-week/route.ts:35-37 | the sample is an element of the non-empty pool |
| Random.SampleCoversPool | src/app/api/generate-week/route.ts:35-37 | every element of the pool can be sampled |
| Random.Find | src/app/api/generate-week/route.ts:196-201 | `find` is None iff no element satisfies the predicate; otherwise it returns an element that satisfies it and that no earlier element does |
| Random.Shuffle | src/app/api/generate-week/route.ts:48-55 | the result is a permutation of the input (same length, same multiset), and `n - 1` random values are consumed |
| Random.SampleManyUnique | src/app/api/generate-week/route.ts:39-46 | exactly `min(count, |arr|)` elements are drawn (none for a non-positive count), as a sub-multiset of `arr`: no position twice |
| Random.SubBagOfDistinct | src/app/api/generate-week/route.ts:39-46 | a draw without replacement from a pool without repeats has no repeats |
| Ids.ParseNatToString | src/app/api/generate-week/route.ts:224 | reading back the decimal rendering of a number gives the number |
| Ids.NatToString | src/app/api/generate-week/route.ts:224 | the decimal rendering of a natural number is a non-empty run of digits with no leading zero |
| Ids.IntToString | src/app/api/generate-week/route.ts:224 | an integer renders as a minus sign exactly when it is negative, followed by digits that read back as its absolute value |
| Ids.PostId | src/app/api/generate-week/route.ts:224 | a post id is `P`, the week number in decimal, `-`, and the post number in decimal: the digits after its last dash read back as the post number, and what lies between `P` and that dash is the week number |
| Ids.CommentId | src/app/api/generate-week/route.ts:264-267 | a comment id starts with `C` |
| Ids.CommentIdReadBack | src/app/api/generate-week/route.ts:264-267 | a comment id is `C`, the week, `-`, the post number, `-`, the comment number: the digits after its last dash read back as the comment number, and what precedes that dash is `C{week}-{post}`, whose own last dash precedes the post number |
| Ids.PostIdInjective | src/app/api/generate-week/route.ts:224 | `P{w}-{n}` ids are equal only for equal week and post numbers, so ids from different weeks never collide |
| Ids.CommentIdInjective | src/app/api/generate-week/route.ts:264-267 | `C{w}-{n}-{c}` ids are equal only for equal week, post and comment numbers |
| Tones.Lower | src/app/api/generate-week/route.ts:59 | the ASCII part of `toLowerCase`: the length is kept and each character is mapped by itself, `A`-`Z` to `a`-`z`, every other character unchanged |
| Tones.Includes | src/app/api/generate-week/route.ts:60-63 | the left-to-right `includes` scan is true iff the pattern occurs at some position |
| Tones.ToneOf | src/app/api/generate-week/route.ts:58-65 | on the lower-cased bio (missing reads as empty): sales iff it mentions "sales"; ops iff not "sales" but "operations"; pm, then consult likewise; general iff none of the four occur |
| Tones.ToneIgnoresCase | src/app/api/generate-week/route.ts:59 | lower-casing a bio first does not change its tone |
| Tones.CommentLine | src/app/api/generate-week/route.ts:67-73 | pm, ops, sales and consult each get their own line, and the general tone the fallback line |
| Tones.CommentLineInjective | src/app/api/generate-week/route.ts:67-73 | the five tones map to five different comment lines |
| Selection.Count | src/app/api/generate-week/route.ts:197 | a subreddit's count so far is its map entry, or 0 when it has none |
| Selection.Bump | src/app/api/generate-week/route.ts:203 | the chosen subreddit's weekly counter goes up by exactly one and no other counter changes |
| Selection.SubredditEligible | src/app/api/generate-week/route.ts:196-200 | a subreddit is eligible only below its cap and never when it was the previous post's; before the first post, eligible exactly when below its cap |
| Selection.PickSubreddit | src/app/api/generate-week/route.ts:193-204 | the chosen subreddit is in the pool; if any subreddit is below its cap (default 999) and differs from the previous post's, the chosen one satisfies both |
| Selection.AuthorEligible | src/app/api/generate-week/route.ts:209-213 | a persona is never eligible when among the first three recent authors or when it wrote the previous post; before the first post, eligible exactly when not among those three |
| Selection.PickAuthor | src/app/api/generate-week/route.ts:207-215 | the author is a persona; if any persona differs from the previous author and is not among the first three recent authors, the chosen one satisfies both |
| Selection.FreshKeywords | src/app/api/generate-week/route.ts:218 | the filtered pool holds exactly the keywords whose id is unseen, and keeps ids unique |
| Selection.KeywordPool | src/app/api/generate-week/route.ts:218-219 | the pool holds only keywords of the company; with six or more unseen keywords it holds only unseen ones, otherwise it is all keywords; it is non-empty when the keywords are |
| Selection.PickKeywords | src/app/api/generate-week/route.ts:217-221 | the keywords are drawn without replacement from the unseen keywords when at least six remain, else from all keywords; there are 2 or 3 of them (all of the pool when it is smaller); with six unseen, none was seen; their ids are unique when keyword ids are |
| Selection.SubBagKeepsDistinctIds | src/app/api/generate-week/route.ts:220 | a draw without replacement from keywords with unique ids has unique ids |
| Selection.AvailableTitles | src/app/api/generate-week/route.ts:227 | the available titles are exactly the templates not yet seen |
| Selection.PickTitle | src/app/api/generate-week/route.ts:226-229 | the title is a template, and an unseen one whenever a template is unseen |
| Selection.Without | src/app/api/generate-week/route.ts:246 | the filtered personas are those with a different id, and their id set loses exactly that id |
| Selection.PickCommenters | src/app/api/generate-week/route.ts:246-249 | None iff fewer than three persona ids besides the author's (the source throws there); otherwise three personas with pairwise different ids, none the author's |
| Generator.ScheduleInSlot | src/app/api/generate-week/route.ts:186-190 | post `i` falls on day `[1,2,3,4,5][i mod 5]` of the week, at an hour in [16, 21] and a minute in {0, 15, 30, 45} |
| Generator.SetUTCHours | src/app/api/generate-week/route.ts:190 | for an hour in [0, 24) and a minute in [0, 60), the day is kept and the time of day becomes `hour:minute` |
| Generator.DrawSlot | src/app/api/generate-week/route.ts:186-190 | the post time lies in its slot (day `[1..5][i mod 5]`, 16:00-21:45 on a quarter hour) and two random values are consumed |
| Generator.DrawPlacement | src/app/api/generate-week/route.ts:193-215 | the subreddit obeys the subreddit rule and the author, a persona, obeys the author rule, given the posts so far |
| Generator.DrawContent | src/app/api/generate-week/route.ts:217-232 | the keywords obey the keyword rule (drawn without replacement from the pool), the title obeys the title rule, and the body template is one of three |
| Generator.KeywordPickObeysRule | src/app/api/generate-week/route.ts:217-222 | what `PickKeywords` promises about its pool is the keyword rule for the post's ids and texts |
| Generator.Thread | src/app/api/generate-week/route.ts:252-307 | four comments of the post: 1 and 3 top-level, 2 answering 1, 4 answering 3; written by the three commenters and then the post's author; each scheduled its gap after the one before |
| Generator.ThreadObeysRules | src/app/api/generate-week/route.ts:252-307 | the built thread has the fixed shape: ids `C{w}-{n}-{1..4}`; comments 1 and 3 top-level, 2 answering 1, 4 answering 3; comment 4 by the post's author; comments 1 and 2 carry their author's tone line; the stated gaps in minutes |
| Generator.TracksAppend | src/app/api/generate-week/route.ts:203-229 | updating counts, last subreddit, last author, seen keyword ids and seen titles with a post keeps the rotation state equal to what the history and the posts so far determine |
| Generator.DrawPost | src/app/api/generate-week/route.ts:184-243 | the post satisfies every per-post rule given the posts before it, and its author is a persona |
| Generator.GenerateThread | src/app/api/generate-week/route.ts:245-307 | the thread is missing iff fewer than four persona ids exist (the source throws there); otherwise it satisfies the thread rules; seven random values are consumed |
| Generator.GeneratePost | src/app/api/generate-week/route.ts:184-307 | one iteration yields a post that satisfies every per-post rule given the posts before it, and a thread that satisfies the thread rules; the thread is missing iff fewer than four persona ids exist; the rotation state stays in step |
| Generator.GenerateWeek | src/app/api/generate-week/route.ts:99-315 | MissingInputs iff a pool is empty; TooFewPersonas iff the pools are non-empty but fewer than four persona ids exist; otherwise the next week, exactly `PostsPerWeek` posts, exactly four comments per post, every post and thread satisfying its rules (keywords drawn without replacement among them), and no post id or comment id repeated; the store calls inside this span are left out |
| Generator.BatchIdsUnique | src/app/api/generate-week/route.ts:224-267 | post ids `P{w}-{i+1}` and comment ids `C{w}-{i+1}-{c}` are pairwise distinct within a batch |
| Generator.CapsHoldWithoutFallback | src/app/api/generate-week/route.ts:193-204 | when some subreddit was eligible at every post (no fallback) and subreddit ids are unique, no used subreddit exceeds its weekly cap |
| Generator.RoomyPoolKeepsRotation | src/app/api/generate-week/route.ts:193-204 | given two subreddits whose caps cover the batch, the fallback never runs, consecutive posts never share a subreddit, and every cap holds |

## Left out

- The store: the Supabase reads and inserts, `NextResponse` and the HTTP
  status codes (route.ts:77-98, 104-128, 159-163, 318-328). Of the
  empty-pool test at route.ts:99-101, only its 400 response is dropped. This is I/O
  through a foreign client. The loaded rows are inputs, and the week row's
  id is a parameter. The `NotFound` and store-error outcomes, and the week
  row that stays inserted when a later step fails, go with it.
- `Promise.all` over the three pool reads: its only point is concurrent I/O.
- Entities.PostsPerWeek: takes `posts_per_week` to be an integer. The
  column is a JavaScript `number` (route.ts:6), and a fractional value such
  as 2.5 would run the loop `i < postsPerWeek` three times. Non-integer
  counts are not modelled.
- Floating point in `randInt` and `shuffle`. `Math.random()` is an exact
  real in [0, 1), so rounding of the product is not modelled.
- Uniformity: the model constrains every outcome, not how likely each one is.
- The JS `Date` object and the ISO strings (`iso`, `toISOString().slice(0,10)`,
  `week_start + 'T00:00:00Z'`). Times are integer minutes, and dates are
  integer days.
- The wording of titles, bodies and comment lines. These are content assets,
  kept opaque.
- The `recentSubredditIds` update (route.ts:311-314). Nothing reads it.
- Tones.Lower, Tones.ToneOf: lower-case only the letters A-Z. JavaScript's
  `toLowerCase` also lowers other letters ('É' becomes 'é'), and it can
  change the length: 'İ' (U+0130) becomes 'i' followed by U+0307. Neither
  difference is modelled. In Unicode's case mappings, only U+0130 and the
  Kelvin sign U+212A (which becomes 'k') lower-case to text holding an ASCII
  letter. Neither can complete "sales", "operations", "product" or
  "consultant", so the tone is the same either way.
- Ids.IntToString: the exponent notation JavaScript uses for integers of 21
  or more digits is not modelled.
- Selection.PickSubreddit: states that the choice is eligible, not that it is
  the first eligible subreddit in the shuffled order (the shuffle is
  internal).
- Selection.PickAuthor: states that the choice is eligible, not that it is
  the first eligible persona in the shuffled order.
- The tone of comment 3 (route.ts:271) is computed and never used. Only its
  effect is modelled: the throw when commenter 3 is missing.
- The user interface files (`calendar/page.tsx`, `calendar/[postId]/page.tsx`,
  `components/GenerateWeekButton.tsx`, `components/WeekSelector.tsx`,
  `page.tsx`). They hold rendering and fetch glue only.
