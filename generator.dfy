/**
 * The weekly content generator of the TypeScript handler
 * `src/app/api/generate-week/route.ts`: it numbers and dates the next week,
 * then builds its posts one after another, each with a fixed four-comment
 * thread, while rotating subreddits, authors, keywords and titles.
 * The store is not modelled: the loaded rows are inputs, and the id the
 * store gives the new week row is a parameter.
 */
module Generator {
  import opened Options
  import opened Dates
  import opened Random
  import opened Ids
  import opened Tones
  import opened Entities
  import opened Selection

  /** The rows the generator reads, and its six title templates. */
  datatype Pools = Pools(personas: seq<Persona>, subreddits: seq<Subreddit>, keywords: seq<Keyword>,
                         recent: seq<RecentPost>, titles: seq<string>)

  datatype GenError =
    | MissingInputs   // a persona, subreddit or keyword pool is empty
    | TooFewPersonas  // a commenter pool ran empty, and reading the missing persona's bio throws

  datatype Batch = Batch(week: Week, posts: seq<Post>, comments: seq<Comment>)

  const TitleTemplateCount: nat := 6
  const BodyTemplateCount: nat := 3
  const DayOffsets: seq<int> := [1, 2, 3, 4, 5]
  const MinuteChoices: seq<int> := [0, 15, 30, 45]

  predicate MissingPools(pools: Pools): (b: bool)
    ensures !b <==> |pools.personas| > 0 && |pools.subreddits| > 0 && |pools.keywords| > 0
  {
    |pools.personas| == 0 || |pools.subreddits| == 0 || |pools.keywords| == 0
  }

  // ---- Week numbering ----

  datatype WeekSlot = WeekSlot(weekNumber: int, weekStart: int)

  /**
   * The number and Monday of the week to generate: one past the latest
   * stored week (whose missing number reads as 0) and seven days after its
   * start; with no stored week, week 1 starting on the Monday of `now`.
   */
  function NextWeek(prior: Option<PriorWeek>, now: int): (w: WeekSlot)
    ensures prior.None? ==> w.weekNumber == 1 && IsMonday(w.weekStart)
                            && Midnight(w.weekStart) <= now < Midnight(w.weekStart + DaysPerWeek)
    ensures prior.Some? ==> w.weekNumber == prior.value.weekNumber.GetOr(0) + 1
                            && w.weekStart == prior.value.weekStart + DaysPerWeek
  {
    match prior
    case None =>
      var start := StartOfWeekMonday(now);
      WeekSlot(1, DayOf(start))
    case Some(last) =>
      WeekSlot(last.weekNumber.GetOr(0) + 1, DayOf(AddDays(Midnight(last.weekStart), DaysPerWeek)))
  }

  /** The weeks that `n` successive runs create, starting from an empty store. */
  function WeekRun(n: nat, now: int): (ws: seq<WeekSlot>)
    ensures |ws| == n
  {
    if n == 0 then []
    else
      var before := WeekRun(n - 1, now);
      var prior := if n == 1 then None else Some(PriorWeek(before[n - 2].weekStart, Some(before[n - 2].weekNumber)));
      before + [NextWeek(prior, now)]
  }

  /** Successive runs number their weeks 1, 2, 3, ... and start them on consecutive Mondays. */
  lemma {:induction false} WeekRunIsContiguous(n: nat, now: int)
    ensures forall j :: 0 <= j < n ==>
      && WeekRun(n, now)[j].weekNumber == j + 1
      && WeekRun(n, now)[j].weekStart == WeekRun(n, now)[0].weekStart + DaysPerWeek * j
      && IsMonday(WeekRun(n, now)[j].weekStart)
  {
    if n > 1 {
      WeekRunIsContiguous(n - 1, now);
      var before := WeekRun(n - 1, now);
      assert WeekRun(n, now)[..n - 1] == before;
      WeekdayAfterWeek(before[0].weekStart, n - 1);
    }
  }

  // ---- What every post and its thread satisfy ----

  /** Below its cap given the posts before, and not the previous post's subreddit. */
  predicate OpenFor(s: Subreddit, prev: seq<Post>) {
    Uses(prev, s.id) < Cap(s) && (|prev| == 0 || s.id != prev[|prev| - 1].subredditId)
  }

  /** The chosen subreddit is in the pool, and open whenever some subreddit of the pool is. */
  ghost predicate SubredditRule(subs: seq<Subreddit>, prev: seq<Post>, id: Id) {
    && (exists s :: s in subs && s.id == id)
    && ((exists s :: s in subs && OpenFor(s, prev)) ==> exists s :: s in subs && s.id == id && OpenFor(s, prev))
  }

  /** Not the previous post's author, and not one of the first three recent authors. */
  predicate AuthorFree(id: Id, prev: seq<Post>, recent: seq<RecentPost>) {
    (|prev| == 0 || id != prev[|prev| - 1].authorPersonaId) && id !in TopRecentAuthors(recent)
  }

  /** The chosen author is a persona, and free whenever some persona is. */
  ghost predicate AuthorRule(personas: seq<Persona>, recent: seq<RecentPost>, prev: seq<Post>, id: Id) {
    && (exists p :: p in personas && p.id == id)
    && ((exists p :: p in personas && AuthorFree(p.id, prev, recent)) ==> AuthorFree(id, prev, recent))
  }

  /** Keyword ids seen in the recent posts or used earlier in this run. */
  function SeenKeywordIds(recent: seq<RecentPost>, prev: seq<Post>): set<Id> {
    RecentKeywordIds(recent) + UsedKeywordIds(prev)
  }

  /**
   * The keywords, paired with their texts, are drawn without replacement
   * from `pool`: no pool entry is used twice.
   */
  predicate DrawnFrom(ids: seq<Id>, texts: seq<string>, pool: seq<Keyword>) {
    && |ids| == |texts|
    && multiset(KeywordsOf(ids, texts)) <= multiset(pool)
    && (forall j :: 0 <= j < |ids| ==> Keyword(ids[j], texts[j]) in pool)
  }

  lemma ChosenDrawnFrom(chosen: seq<Keyword>, pool: seq<Keyword>)
    requires multiset(chosen) <= multiset(pool)
    ensures DrawnFrom(KeywordIdsOf(chosen), KeywordTextsOf(chosen), pool)
  {
    KeywordsOfParts(chosen);
    forall j | 0 <= j < |chosen| ensures Keyword(KeywordIdsOf(chosen)[j], KeywordTextsOf(chosen)[j]) in pool {
      assert chosen[j] in multiset(pool);
    }
  }

  /**
   * The keywords come from the pool (unseen ones when six or more remain),
   * two or three of them when the pool allows, with their texts in the body,
   * and without repeats when keyword ids are unique.
   */
  ghost predicate KeywordRule(keywords: seq<Keyword>, recent: seq<RecentPost>, prev: seq<Post>,
                              ids: seq<Id>, texts: seq<string>) {
    var seen := SeenKeywordIds(recent, prev);
    var pool := KeywordPool(keywords, seen);
    && DrawnFrom(ids, texts, pool)
    && (if |pool| >= 2 then 2 <= |ids| <= 3 else |ids| == |pool|)
    && (|FreshKeywords(keywords, seen)| >= 6 ==> forall j :: 0 <= j < |ids| ==> ids[j] !in seen)
    && (DistinctKeywordIds(keywords) ==> Distinct(ids))
  }

  /** Titles seen in the recent posts or chosen earlier in this run. */
  function SeenTitles(recent: seq<RecentPost>, prev: seq<Post>): set<string> {
    RecentTitles(recent) + PostTitles(prev)
  }

  /** The title is a template, and an unseen one while any template is unseen. */
  ghost predicate TitleRule(titles: seq<string>, recent: seq<RecentPost>, prev: seq<Post>, t: string) {
    var seen := SeenTitles(recent, prev);
    t in titles && ((exists x :: x in titles && x !in seen) ==> t !in seen)
  }

  /** On day `DayOffsets[i mod 5]` of the week, between 16:00 and 21:45 UTC on a quarter hour. */
  predicate ScheduledInSlot(t: int, weekStart: int, i: nat) {
    var d := t - Midnight(weekStart + DayOffsets[i % |DayOffsets|]);
    0 <= d && 16 <= d / 60 <= 21 && d % 60 in {0, 15, 30, 45}
  }

  /** What post number `i + 1` of the week satisfies, given the posts before it. */
  ghost predicate PostRules(pools: Pools, week: Week, prev: seq<Post>, i: nat, p: Post) {
    && p.id == PostId(week.weekNumber, i + 1)
    && p.weekId == week.id
    && ScheduledInSlot(p.scheduledAt, week.weekStart, i)
    && SubredditRule(pools.subreddits, prev, p.subredditId)
    && AuthorRule(pools.personas, pools.recent, prev, p.authorPersonaId)
    && KeywordRule(pools.keywords, pools.recent, prev, p.keywordIds, p.body.keywords)
    && TitleRule(pools.titles, pools.recent, prev, p.title)
    && 0 <= p.body.template < BodyTemplateCount
  }

  /** A comment by a persona whose bio's tone gives the comment's line. */
  ghost predicate ToneComment(personas: seq<Persona>, c: Comment) {
    exists q :: q in personas && q.id == c.personaId && c.text == ToneText(CommentLine(ToneOf(q.bio)))
  }

  /**
   * The thread of post `i + 1`: comment 1 and comment 3 are top-level,
   * comment 2 answers 1 and comment 4, by the post's author, answers 3;
   * three distinct other personas write the first three; each comes
   * 45-90, 60-120, 90-180 and 45-120 minutes after the one before.
   */
  ghost predicate CommentRules(personas: seq<Persona>, week: Week, i: nat, p: Post, cs: seq<Comment>) {
    && |cs| == 4
    && (forall c :: c in cs ==> c.postId == p.id)
    && cs[0].id == CommentId(week.weekNumber, i + 1, 1)
    && cs[1].id == CommentId(week.weekNumber, i + 1, 2)
    && cs[2].id == CommentId(week.weekNumber, i + 1, 3)
    && cs[3].id == CommentId(week.weekNumber, i + 1, 4)
    && cs[0].parentCommentId == None && cs[1].parentCommentId == Some(cs[0].id)
    && cs[2].parentCommentId == None && cs[3].parentCommentId == Some(cs[2].id)
    && cs[3].personaId == p.authorPersonaId
    && cs[2].personaId in PersonaIds(personas)
    && cs[0].personaId != p.authorPersonaId && cs[1].personaId != p.authorPersonaId
    && cs[2].personaId != p.authorPersonaId
    && cs[0].personaId != cs[1].personaId && cs[0].personaId != cs[2].personaId
    && cs[1].personaId != cs[2].personaId
    && ToneComment(personas, cs[0]) && ToneComment(personas, cs[1])
    && cs[2].text == ClarifyingQuestion && cs[3].text == AuthorReply
    && 45 <= cs[0].scheduledAt - p.scheduledAt <= 90
    && 60 <= cs[1].scheduledAt - cs[0].scheduledAt <= 120
    && 90 <= cs[2].scheduledAt - cs[1].scheduledAt <= 180
    && 45 <= cs[3].scheduledAt - cs[2].scheduledAt <= 120
  }

  /** The rotation state is what the recent posts and the posts so far determine. */
  ghost predicate Tracks(rot: Rotation, recent: seq<RecentPost>, posts: seq<Post>) {
    && (forall id :: Count(rot.counts, id) == Uses(posts, id))
    && rot.usedSubredditIds == SubredditIdsOf(posts)
    && rot.usedPersonaIds == AuthorIdsOf(posts)
    && rot.keywordIds == SeenKeywordIds(recent, posts)
    && rot.titles == SeenTitles(recent, posts)
  }

  /** `date.setUTCHours(hour, minute, 0, 0)`; out-of-range values roll over as in JavaScript. */
  function SetUTCHours(t: int, hour: int, minute: int): (r: int)
    ensures 0 <= hour < 24 && 0 <= minute < 60 ==> DayOf(r) == DayOf(t) && r % MinutesPerDay == 60 * hour + minute
  {
    Midnight(DayOf(t)) + 60 * hour + minute
  }

  // ---- Appending a post to the posts so far ----

  lemma UsesAppend(posts: seq<Post>, p: Post, id: Id)
    ensures Uses(posts + [p], id) == Uses(posts, id) + (if p.subredditId == id then 1 else 0)
  {
    assert (posts + [p])[..|posts|] == posts;
  }

  lemma UsedKeywordIdsAppend(posts: seq<Post>, p: Post)
    ensures UsedKeywordIds(posts + [p]) == UsedKeywordIds(posts) + SetOf(p.keywordIds)
  {
    assert (posts + [p])[..|posts|] == posts;
  }

  lemma PostTitlesAppend(posts: seq<Post>, p: Post)
    ensures PostTitles(posts + [p]) == PostTitles(posts) + {p.title}
  {
    assert forall q :: q in posts + [p] <==> q in posts || q == p;
  }

  lemma CountsAppend(counts: map<Id, int>, posts: seq<Post>, p: Post)
    requires forall id :: Count(counts, id) == Uses(posts, id)
    ensures forall id :: Count(Bump(counts, p.subredditId), id) == Uses(posts + [p], id)
  {
    forall id ensures Count(Bump(counts, p.subredditId), id) == Uses(posts + [p], id) {
      UsesAppend(posts, p, id);
    }
  }

  /** Updating the rotation state with a post's choices keeps it in step with the posts. */
  lemma TracksAppend(rot: Rotation, recent: seq<RecentPost>, posts: seq<Post>, p: Post)
    requires Tracks(rot, recent, posts)
    ensures Tracks(Rotation(Bump(rot.counts, p.subredditId), rot.usedSubredditIds + [p.subredditId],
                            rot.usedPersonaIds + [p.authorPersonaId], rot.keywordIds + SetOf(p.keywordIds),
                            rot.titles + {p.title}), recent, posts + [p])
  {
    CountsAppend(rot.counts, posts, p);
    UsedKeywordIdsAppend(posts, p);
    PostTitlesAppend(posts, p);
    assert SubredditIdsOf(posts + [p]) == SubredditIdsOf(posts) + [p.subredditId];
    assert AuthorIdsOf(posts + [p]) == AuthorIdsOf(posts) + [p.authorPersonaId];
  }

  // ---- From the picks to the rules ----

  lemma ScheduleInSlot(weekStart: int, i: nat, hour: int, minuteIndex: int)
    requires 16 <= hour <= 21 && 0 <= minuteIndex < 4
    ensures ScheduledInSlot(SetUTCHours(AddDays(Midnight(weekStart), DayOffsets[i % |DayOffsets|]), hour,
                                        MinuteChoices[minuteIndex]), weekStart, i)
  {
    var day := weekStart + DayOffsets[i % |DayOffsets|];
    assert DayOf(AddDays(Midnight(weekStart), DayOffsets[i % |DayOffsets|])) == day;
    var d := 60 * hour + MinuteChoices[minuteIndex];
    assert d / 60 == hour && d % 60 == MinuteChoices[minuteIndex];
  }

  lemma SubredditPickObeysRule(subs: seq<Subreddit>, rot: Rotation, recent: seq<RecentPost>, posts: seq<Post>, s: Subreddit)
    requires Tracks(rot, recent, posts)
    requires s in subs
    requires (exists x :: x in subs && SubredditEligible(x, rot.counts, rot.usedSubredditIds)) ==>
             SubredditEligible(s, rot.counts, rot.usedSubredditIds)
    ensures SubredditRule(subs, posts, s.id)
  {
    forall x ensures SubredditEligible(x, rot.counts, rot.usedSubredditIds) <==> OpenFor(x, posts) {
      assert Count(rot.counts, x.id) == Uses(posts, x.id);
    }
  }

  lemma AuthorPickObeysRule(personas: seq<Persona>, rot: Rotation, recent: seq<RecentPost>, posts: seq<Post>, a: Persona)
    requires Tracks(rot, recent, posts)
    requires a in personas
    requires (exists q :: q in personas && AuthorEligible(q, rot.usedPersonaIds, TopRecentAuthors(recent))) ==>
             AuthorEligible(a, rot.usedPersonaIds, TopRecentAuthors(recent))
    ensures AuthorRule(personas, recent, posts, a.id)
  {
    assert forall q :: AuthorEligible(q, rot.usedPersonaIds, TopRecentAuthors(recent)) <==> AuthorFree(q.id, posts, recent);
  }

  lemma KeywordPickObeysRule(keywords: seq<Keyword>, seen: set<Id>, recent: seq<RecentPost>, posts: seq<Post>,
                             chosen: seq<Keyword>)
    requires SeenKeywordIds(recent, posts) == seen
    requires multiset(chosen) <= multiset(KeywordPool(keywords, seen))
    requires var n := |KeywordPool(keywords, seen)|; if n >= 2 then 2 <= |chosen| <= 3 else |chosen| == n
    requires |FreshKeywords(keywords, seen)| >= 6 ==> forall i :: 0 <= i < |chosen| ==> chosen[i].id !in seen
    requires DistinctKeywordIds(keywords) ==> DistinctKeywordIds(chosen)
    ensures KeywordRule(keywords, recent, posts, KeywordIdsOf(chosen), KeywordTextsOf(chosen))
  {
    ChosenDrawnFrom(chosen, KeywordPool(keywords, seen));
  }

  /** The four comments of post `i + 1`, from its three commenters and the four gaps in minutes. */
  function Thread(week: Week, i: nat, p: Post, cm: Commenters, g1: int, g2: int, g3: int, g4: int): (r: seq<Comment>)
    ensures |r| == 4 && forall c :: c in r ==> c.postId == p.id
    ensures r[0].parentCommentId == None && r[1].parentCommentId == Some(r[0].id)
    ensures r[2].parentCommentId == None && r[3].parentCommentId == Some(r[2].id)
    ensures r[0].personaId == cm.c1.id && r[1].personaId == cm.c2.id
    ensures r[2].personaId == cm.c3.id && r[3].personaId == p.authorPersonaId
    ensures r[0].scheduledAt == p.scheduledAt + g1 && r[1].scheduledAt == r[0].scheduledAt + g2
    ensures r[2].scheduledAt == r[1].scheduledAt + g3 && r[3].scheduledAt == r[2].scheduledAt + g4
  {
    var t1 := p.scheduledAt + g1;
    var t2 := t1 + g2;
    var t3 := t2 + g3;
    var t4 := t3 + g4;
    var id1 := CommentId(week.weekNumber, i + 1, 1);
    var id3 := CommentId(week.weekNumber, i + 1, 3);
    [ Comment(id1, p.id, None, cm.c1.id, t1, ToneText(CommentLine(ToneOf(cm.c1.bio)))),
      Comment(CommentId(week.weekNumber, i + 1, 2), p.id, Some(id1), cm.c2.id, t2,
              ToneText(CommentLine(ToneOf(cm.c2.bio)))),
      Comment(id3, p.id, None, cm.c3.id, t3, ClarifyingQuestion),
      Comment(CommentId(week.weekNumber, i + 1, 4), p.id, Some(id3), p.authorPersonaId, t4, AuthorReply) ]
  }

  lemma ThreadObeysRules(personas: seq<Persona>, week: Week, i: nat, p: Post, cm: Commenters,
                         g1: int, g2: int, g3: int, g4: int)
    requires cm.c1 in personas && cm.c2 in personas && cm.c3 in personas
    requires cm.c1.id != p.authorPersonaId && cm.c2.id != p.authorPersonaId && cm.c3.id != p.authorPersonaId
    requires cm.c1.id != cm.c2.id && cm.c1.id != cm.c3.id && cm.c2.id != cm.c3.id
    requires 45 <= g1 <= 90 && 60 <= g2 <= 120 && 90 <= g3 <= 180 && 45 <= g4 <= 120
    ensures CommentRules(personas, week, i, p, Thread(week, i, p, cm, g1, g2, g3, g4))
  {
    var cs := Thread(week, i, p, cm, g1, g2, g3, g4);
    assert cm.c3.id in PersonaIds(personas);
    assert ToneComment(personas, cs[0]) by { assert cm.c1 in personas; }
    assert ToneComment(personas, cs[1]) by { assert cm.c2 in personas; }
  }

  /**
   * One iteration of the generation loop: post number `|posts| + 1` and its
   * thread, or None for the thread when a commenter pool runs empty.
   */
  method GeneratePost(pools: Pools, week: Week, posts: seq<Post>, rot: Rotation, rng: Stream, k0: nat)
    returns (p: Post, thread: Option<seq<Comment>>, next: Rotation, k: nat)
    requires !MissingPools(pools) && |pools.titles| > 0
    requires Tracks(rot, pools.recent, posts)
    ensures PostRules(pools, week, posts, |posts|, p)
    ensures thread.None? <==> |PersonaIds(pools.personas)| < 4
    ensures thread.Some? ==> CommentRules(pools.personas, week, |posts|, p, thread.value)
    ensures Tracks(next, pools.recent, posts + [p])
    ensures k0 <= k
  {
    p, k := DrawPost(pools, week, posts, rot, rng, k0);
    thread, k := GenerateThread(pools.personas, week, |posts|, p, rng, k);
    next := Rotation(Bump(rot.counts, p.subredditId), rot.usedSubredditIds + [p.subredditId],
                     rot.usedPersonaIds + [p.authorPersonaId], rot.keywordIds + SetOf(p.keywordIds),
                     rot.titles + {p.title});
    TracksAppend(rot, pools.recent, posts, p);
  }

  /**
   * The post part of one iteration: its slot, then its subreddit and
   * author, then its keywords, title and body, drawn in the handler's order.
   */
  method DrawPost(pools: Pools, week: Week, posts: seq<Post>, rot: Rotation, rng: Stream, k0: nat)
    returns (p: Post, k: nat)
    requires !MissingPools(pools) && |pools.titles| > 0
    requires Tracks(rot, pools.recent, posts)
    ensures PostRules(pools, week, posts, |posts|, p)
    ensures p.authorPersonaId in PersonaIds(pools.personas)
    ensures k0 <= k
  {
    var i := |posts|;
    var scheduled;
    scheduled, k := DrawSlot(week.weekStart, i, rng, k0);
    var sub, author;
    sub, author, k := DrawPlacement(pools, posts, rot, rng, k);
    var ids, title, body;
    ids, title, body, k := DrawContent(pools, posts, rot, rng, k);
    p := Post(PostId(week.weekNumber, i + 1), week.id, sub.id, title, body, author.id, scheduled, ids);
    assert author.id in PersonaIds(pools.personas);
  }

  /** `addDaysUTC(weekStart, offset)` at a random hour in [16, 21] and a random quarter hour. */
  method DrawSlot(weekStart: int, i: nat, rng: Stream, k0: nat) returns (t: int, k: nat)
    ensures ScheduledInSlot(t, weekStart, i)
    ensures k == k0 + 2
  {
    var hour := RandInt(16, 21, rng(k0));
    var minuteIndex := RandInt(0, 3, rng(k0 + 1));
    k := k0 + 2;
    t := SetUTCHours(AddDays(Midnight(weekStart), DayOffsets[i % |DayOffsets|]), hour, MinuteChoices[minuteIndex]);
    ScheduleInSlot(weekStart, i, hour, minuteIndex);
  }

  /** The subreddit, then the author, each by shuffle and `find` with a `sample` fallback. */
  method DrawPlacement(pools: Pools, posts: seq<Post>, rot: Rotation, rng: Stream, k0: nat)
    returns (sub: Subreddit, author: Persona, k: nat)
    requires !MissingPools(pools)
    requires Tracks(rot, pools.recent, posts)
    ensures SubredditRule(pools.subreddits, posts, sub.id)
    ensures author in pools.personas && AuthorRule(pools.personas, pools.recent, posts, author.id)
    ensures k0 <= k
  {
    sub, k := PickSubreddit(pools.subreddits, rot.counts, rot.usedSubredditIds, rng, k0);
    SubredditPickObeysRule(pools.subreddits, rot, pools.recent, posts, sub);
    author, k := PickAuthor(pools.personas, rot.usedPersonaIds, TopRecentAuthors(pools.recent), rng, k);
    AuthorPickObeysRule(pools.personas, rot, pools.recent, posts, author);
  }

  /** The keywords, then the title, then the body template filled with the keyword texts. */
  method DrawContent(pools: Pools, posts: seq<Post>, rot: Rotation, rng: Stream, k0: nat)
    returns (ids: seq<Id>, title: string, body: Body, k: nat)
    requires !MissingPools(pools) && |pools.titles| > 0
    requires rot.keywordIds == SeenKeywordIds(pools.recent, posts)
    requires rot.titles == SeenTitles(pools.recent, posts)
    ensures KeywordRule(pools.keywords, pools.recent, posts, ids, body.keywords)
    ensures TitleRule(pools.titles, pools.recent, posts, title)
    ensures 0 <= body.template < BodyTemplateCount
    ensures k0 <= k
  {
    var chosen;
    chosen, k := PickKeywords(pools.keywords, rot.keywordIds, rng, k0);
    KeywordPickObeysRule(pools.keywords, rot.keywordIds, pools.recent, posts, chosen);
    ids := KeywordIdsOf(chosen);
    var texts := KeywordTextsOf(chosen);
    title := PickTitle(pools.titles, rot.titles, rng(k));
    body := Body(RandInt(0, BodyTemplateCount as int - 1, rng(k + 1)), texts[..Min(3, |texts|)]);
    k := k + 2;
    assert texts[..Min(3, |texts|)] == texts;
  }

  /**
   * The comments of post `i + 1` (its author being a persona): three
   * commenters, then the four gaps; None when a commenter pool runs empty.
   */
  method GenerateThread(personas: seq<Persona>, week: Week, i: nat, p: Post, rng: Stream, k0: nat)
    returns (thread: Option<seq<Comment>>, k: nat)
    requires p.authorPersonaId in PersonaIds(personas)
    ensures thread.None? <==> |PersonaIds(personas)| < 4
    ensures thread.Some? ==> CommentRules(personas, week, i, p, thread.value)
    ensures k == k0 + 7
  {
    var commenters := PickCommenters(personas, p.authorPersonaId, rng(k0), rng(k0 + 1), rng(k0 + 2));
    var g1 := RandInt(45, 90, rng(k0 + 3));
    var g2 := RandInt(60, 120, rng(k0 + 4));
    var g3 := RandInt(90, 180, rng(k0 + 5));
    var g4 := RandInt(45, 120, rng(k0 + 6));
    k := k0 + 7;
    assert |PersonaIds(personas) - {p.authorPersonaId}| == |PersonaIds(personas)| - 1;
    if commenters.None? {
      thread := None;
    } else {
      thread := Some(Thread(week, i, p, commenters.value, g1, g2, g3, g4));
      ThreadObeysRules(personas, week, i, p, commenters.value, g1, g2, g3, g4);
    }
  }

  /** Post ids, and comment ids, never repeat within a batch. */
  predicate UniqueIds(b: Batch) {
    && (forall i, j :: 0 <= i < j < |b.posts| ==> b.posts[i].id != b.posts[j].id)
    && (forall i, j :: 0 <= i < j < |b.comments| ==> b.comments[i].id != b.comments[j].id)
  }

  /** What a successful run produces. */
  ghost predicate BatchRules(company: Company, pools: Pools, prior: Option<PriorWeek>, now: int, weekId: Id, b: Batch) {
    var slot := NextWeek(prior, now);
    && b.week == Week(weekId, slot.weekNumber, slot.weekStart)
    && |b.posts| == PostsPerWeek(company)
    && |b.comments| == 4 * |b.posts|
    && PostsBuilt(pools, b.week, b.posts)
    && ThreadsBuilt(pools.personas, b.week, b.posts, b.comments)
    && UniqueIds(b)
  }

  lemma BatchIdsUnique(b: Batch)
    requires |b.comments| == 4 * |b.posts|
    requires forall i :: 0 <= i < |b.posts| ==> b.posts[i].id == PostId(b.week.weekNumber, i + 1)
    requires forall i :: 0 <= i < |b.comments| ==> b.comments[i].id == CommentId(b.week.weekNumber, i / 4 + 1, i % 4 + 1)
    ensures UniqueIds(b)
  {
    var w := b.week.weekNumber;
    forall i, j | 0 <= i < j < |b.posts| ensures b.posts[i].id != b.posts[j].id {
      PostIdInjective(w, i + 1, w, j + 1);
    }
    forall i, j | 0 <= i < j < |b.comments| ensures b.comments[i].id != b.comments[j].id {
      PositionalCommentIdsDiffer(w, i, j);
    }
  }

  /** Comments at different positions of a batch get different ids. */
  lemma PositionalCommentIdsDiffer(w: int, i: nat, j: nat)
    requires i < j
    ensures CommentId(w, i / 4 + 1, i % 4 + 1) != CommentId(w, j / 4 + 1, j % 4 + 1)
  {
    CommentIdInjective(w, i / 4 + 1, i % 4 + 1, w, j / 4 + 1, j % 4 + 1);
    QuotientAndRemainderDetermine(i, j);
  }

  lemma QuotientAndRemainderDetermine(i: nat, j: nat)
    ensures i / 4 == j / 4 && i % 4 == j % 4 ==> i == j
  {
    assert i == 4 * (i / 4) + i % 4 && j == 4 * (j / 4) + j % 4;
  }

  /** Every post built so far satisfies its rules. */
  ghost predicate PostsBuilt(pools: Pools, week: Week, posts: seq<Post>) {
    forall j :: 0 <= j < |posts| ==> PostRules(pools, week, posts[..j], j, posts[j])
  }

  /** Every post built so far has its thread. */
  ghost predicate ThreadsBuilt(personas: seq<Persona>, week: Week, posts: seq<Post>, comments: seq<Comment>) {
    && |comments| == 4 * |posts|
    && forall j :: 0 <= j < |posts| ==> CommentRules(personas, week, j, posts[j], comments[4 * j..4 * j + 4])
  }

  lemma ExtendPosts(pools: Pools, week: Week, posts: seq<Post>, p: Post)
    requires PostsBuilt(pools, week, posts)
    requires PostRules(pools, week, posts, |posts|, p)
    ensures PostsBuilt(pools, week, posts + [p])
  {
    var posts' := posts + [p];
    forall j | 0 <= j < |posts'| ensures PostRules(pools, week, posts'[..j], j, posts'[j]) {
      PrefixOfExtended(posts, p, j);
    }
  }

  lemma PrefixOfExtended(posts: seq<Post>, p: Post, j: nat)
    requires j <= |posts|
    ensures (posts + [p])[..j] == posts[..j]
    ensures (posts + [p])[j] == if j < |posts| then posts[j] else p
    ensures j == |posts| ==> posts[..j] == posts
  {
  }

  lemma ExtendThreads(personas: seq<Persona>, week: Week, posts: seq<Post>, comments: seq<Comment>, p: Post, cs: seq<Comment>)
    requires ThreadsBuilt(personas, week, posts, comments)
    requires CommentRules(personas, week, |posts|, p, cs)
    ensures ThreadsBuilt(personas, week, posts + [p], comments + cs)
  {
    var i := |posts|;
    var posts', comments' := posts + [p], comments + cs;
    forall j | 0 <= j < i + 1 ensures CommentRules(personas, week, j, posts'[j], comments'[4 * j..4 * j + 4]) {
      if j < i {
        assert comments'[4 * j..4 * j + 4] == comments[4 * j..4 * j + 4] && posts'[j] == posts[j];
      } else {
        assert comments'[4 * j..4 * j + 4] == cs && posts'[j] == p;
      }
    }
  }

  lemma PostIdsBuilt(pools: Pools, week: Week, posts: seq<Post>)
    requires PostsBuilt(pools, week, posts)
    ensures forall j :: 0 <= j < |posts| ==> posts[j].id == PostId(week.weekNumber, j + 1)
  {
    forall j | 0 <= j < |posts| ensures posts[j].id == PostId(week.weekNumber, j + 1) {
      assert PostRules(pools, week, posts[..j], j, posts[j]);
    }
  }

  lemma ThreadIds(personas: seq<Persona>, week: Week, n: nat, p: Post, cs: seq<Comment>, m: nat)
    requires CommentRules(personas, week, n, p, cs) && m < 4
    ensures cs[m].id == CommentId(week.weekNumber, n + 1, m + 1)
  {
    var w := week.weekNumber;
    // one case per comment of the thread
    if m == 0 {
      assert cs[0].id == CommentId(w, n + 1, 1);
    } else if m == 1 {
      assert cs[1].id == CommentId(w, n + 1, 2);
    } else if m == 2 {
      assert cs[2].id == CommentId(w, n + 1, 3);
    } else {
      assert cs[3].id == CommentId(w, n + 1, 4);
    }
  }

  lemma CommentIdAt(personas: seq<Persona>, week: Week, posts: seq<Post>, comments: seq<Comment>, n: nat, m: nat)
    requires ThreadsBuilt(personas, week, posts, comments)
    requires n < |posts| && m < 4
    ensures comments[4 * n + m].id == CommentId(week.weekNumber, n + 1, m + 1)
  {
    var cs := comments[4 * n..4 * n + 4];
    assert CommentRules(personas, week, n, posts[n], cs);
    ThreadIds(personas, week, n, posts[n], cs, m);
    assert comments[4 * n + m] == cs[m];
  }

  lemma CommentIdsBuilt(personas: seq<Persona>, week: Week, posts: seq<Post>, comments: seq<Comment>)
    requires ThreadsBuilt(personas, week, posts, comments)
    ensures forall j :: 0 <= j < |comments| ==> comments[j].id == CommentId(week.weekNumber, j / 4 + 1, j % 4 + 1)
  {
    forall j | 0 <= j < |comments| ensures comments[j].id == CommentId(week.weekNumber, j / 4 + 1, j % 4 + 1) {
      var n, m := j / 4, j % 4;
      assert 4 * n + m == j && 0 <= n < |posts|;
      CommentIdAt(personas, week, posts, comments, n, m);
    }
  }

  lemma BuiltHasUniqueIds(pools: Pools, b: Batch)
    requires PostsBuilt(pools, b.week, b.posts)
    requires ThreadsBuilt(pools.personas, b.week, b.posts, b.comments)
    ensures UniqueIds(b)
  {
    PostIdsBuilt(pools, b.week, b.posts);
    CommentIdsBuilt(pools.personas, b.week, b.posts, b.comments);
    BatchIdsUnique(b);
  }

  /**
   * The whole run: the week row, then `PostsPerWeek(company)` posts with
   * four comments each, built in order while the rotation state follows
   * them. Fails with MissingInputs on an empty pool, and with
   * TooFewPersonas when fewer than four distinct personas exist.
   */
  method GenerateWeek(company: Company, pools: Pools, prior: Option<PriorWeek>, now: int, weekId: Id, rng: Stream)
    returns (r: Result<Batch, GenError>)
    requires |pools.titles| == TitleTemplateCount
    ensures r == Failure(MissingInputs) <==> MissingPools(pools)
    ensures r == Failure(TooFewPersonas) <==> !MissingPools(pools) && |PersonaIds(pools.personas)| < 4
    ensures r.Success? <==> !MissingPools(pools) && |PersonaIds(pools.personas)| >= 4
    ensures r.Success? ==> BatchRules(company, pools, prior, now, weekId, r.value)
  {
    if MissingPools(pools) {
      return Failure(MissingInputs);
    }
    var slot := NextWeek(prior, now);
    var week := Week(weekId, slot.weekNumber, slot.weekStart);
    var postsPerWeek := PostsPerWeek(company);
    var rot := Rotation(map[], [], [], RecentKeywordIds(pools.recent), RecentTitles(pools.recent));
    var posts: seq<Post> := [];
    var comments: seq<Comment> := [];
    var k: nat := 0;
    assert SubredditIdsOf([]) == [] && AuthorIdsOf([]) == [];
    for i := 0 to postsPerWeek
      invariant |posts| == i && |comments| == 4 * i
      invariant Tracks(rot, pools.recent, posts)
      invariant i > 0 ==> |PersonaIds(pools.personas)| >= 4
      invariant PostsBuilt(pools, week, posts)
      invariant ThreadsBuilt(pools.personas, week, posts, comments)
    {
      var p, thread, next, k' := GeneratePost(pools, week, posts, rot, rng, k);
      if thread.None? {
        return Failure(TooFewPersonas);
      }
      ExtendPosts(pools, week, posts, p);
      ExtendThreads(pools.personas, week, posts, comments, p, thread.value);
      posts, comments, rot, k := posts + [p], comments + thread.value, next, k';
    }
    var b := Batch(week, posts, comments);
    BuiltHasUniqueIds(pools, b);
    r := Success(b);
  }

  // ---- Caps and rotation across a batch ----

  predicate DistinctSubredditIds(subs: seq<Subreddit>) {
    forall i, j :: 0 <= i < j < |subs| ==> subs[i].id != subs[j].id
  }

  /** Some subreddit of the pool was open for every post: the fallback never ran. */
  ghost predicate NoFallback(subs: seq<Subreddit>, posts: seq<Post>) {
    forall i :: 0 <= i < |posts| ==> exists s :: s in subs && OpenFor(s, posts[..i])
  }

  /** Without a fallback, no subreddit (ids being unique) goes over its weekly cap. */
  lemma {:induction false} CapsHoldWithoutFallback(subs: seq<Subreddit>, posts: seq<Post>)
    requires DistinctSubredditIds(subs)
    requires forall i :: 0 <= i < |posts| ==> SubredditRule(subs, posts[..i], posts[i].subredditId)
    requires NoFallback(subs, posts)
    ensures forall s :: s in subs ==> Uses(posts, s.id) == 0 || Uses(posts, s.id) <= Cap(s)
  {
    if |posts| > 0 {
      var n := |posts| - 1;
      var init, last := posts[..n], posts[n];
      assert posts == init + [last];
      forall i | 0 <= i < n ensures SubredditRule(subs, init[..i], init[i].subredditId) {
        assert init[..i] == posts[..i] && init[i] == posts[i];
      }
      forall i | 0 <= i < n ensures exists s :: s in subs && OpenFor(s, init[..i]) {
        assert init[..i] == posts[..i];
      }
      CapsHoldWithoutFallback(subs, init);
      assert SubredditRule(subs, init, last.subredditId);
      assert exists s :: s in subs && OpenFor(s, init);
      forall s | s in subs ensures Uses(posts, s.id) == 0 || Uses(posts, s.id) <= Cap(s) {
        CapStep(subs, init, last, s);
      }
    }
  }

  /** One more post keeps a subreddit within its cap when the chosen subreddit was open. */
  lemma CapStep(subs: seq<Subreddit>, init: seq<Post>, last: Post, s: Subreddit)
    requires DistinctSubredditIds(subs) && s in subs
    requires Uses(init, s.id) == 0 || Uses(init, s.id) <= Cap(s)
    requires exists c :: c in subs && c.id == last.subredditId && OpenFor(c, init)
    ensures Uses(init + [last], s.id) == 0 || Uses(init + [last], s.id) <= Cap(s)
  {
    UsesAppend(init, last, s.id);
    if s.id == last.subredditId {
      var c :| c in subs && c.id == last.subredditId && OpenFor(c, init);
      var a :| 0 <= a < |subs| && subs[a] == s;
      var b :| 0 <= b < |subs| && subs[b] == c;
      assert a == b;
    }
  }

  lemma {:induction false} UsesAtMostLength(posts: seq<Post>, id: Id)
    ensures Uses(posts, id) <= |posts|
  {
    if |posts| > 0 {
      UsesAtMostLength(posts[..|posts| - 1], id);
    }
  }

  /**
   * With two subreddits of the pool whose caps cover the whole batch, the
   * fallback never runs: consecutive posts never share a subreddit, and
   * (ids being unique) every cap holds.
   */
  lemma RoomyPoolKeepsRotation(subs: seq<Subreddit>, posts: seq<Post>, a: Subreddit, b: Subreddit)
    requires DistinctSubredditIds(subs)
    requires a in subs && b in subs && a.id != b.id && Cap(a) >= |posts| && Cap(b) >= |posts|
    requires forall i :: 0 <= i < |posts| ==> SubredditRule(subs, posts[..i], posts[i].subredditId)
    ensures NoFallback(subs, posts)
    ensures forall i :: 0 < i < |posts| ==> posts[i].subredditId != posts[i - 1].subredditId
    ensures forall s :: s in subs ==> Uses(posts, s.id) == 0 || Uses(posts, s.id) <= Cap(s)
  {
    forall i | 0 <= i < |posts| ensures exists s :: s in subs && OpenFor(s, posts[..i]) {
      UsesAtMostLength(posts[..i], a.id);
      UsesAtMostLength(posts[..i], b.id);
      if OpenFor(a, posts[..i]) {
      } else {
        assert OpenFor(b, posts[..i]);
      }
    }
    forall i | 0 < i < |posts| ensures posts[i].subredditId != posts[i - 1].subredditId {
      assert posts[..i][i - 1] == posts[i - 1];
    }
    CapsHoldWithoutFallback(subs, posts);
  }
}
