/**
 * The records the generator reads and writes, and the facts it derives
 * from the recent posts and from the posts generated so far.
 */
module Entities {
  import opened Options
  import opened Tones

  type Id = string

  datatype Company = Company(id: Id, postsPerWeek: Option<int>)
  datatype Persona = Persona(id: Id, username: string, bio: Option<string>)
  datatype Subreddit = Subreddit(id: Id, name: string, maxPostsPerWeek: Option<int>, notes: string)
  datatype Keyword = Keyword(id: Id, keyword: string)

  /** The latest stored week: its start date (days since the epoch) and its number, which may be missing. */
  datatype PriorWeek = PriorWeek(weekStart: int, weekNumber: Option<int>)

  /** One of the most recent stored posts, projected to the columns the generator reads. */
  datatype RecentPost = RecentPost(title: string, subredditId: Id, authorPersonaId: Id, keywordIds: Option<seq<Id>>)

  /** The new week row: the id the store assigned, its number, and its Monday (days since the epoch). */
  datatype Week = Week(id: Id, weekNumber: int, weekStart: int)

  /** A post body: the chosen one of three templates, filled with the keyword texts. */
  datatype Body = Body(template: int, keywords: seq<string>)

  datatype Post = Post(id: string, weekId: Id, subredditId: Id, title: string, body: Body,
                       authorPersonaId: Id, scheduledAt: int, keywordIds: seq<Id>)

  /** The text of a comment: a tone line, the fixed clarifying question, or the fixed author reply. */
  datatype CommentText = ToneText(line: Line) | ClarifyingQuestion | AuthorReply

  datatype Comment = Comment(id: string, postId: string, parentCommentId: Option<string>,
                             personaId: Id, scheduledAt: int, text: CommentText)

  /** `s.max_posts_per_week ?? 999`. */
  function Cap(s: Subreddit): (c: int)
    ensures c == match s.maxPostsPerWeek case None => 999 case Some(max) => max
  {
    s.maxPostsPerWeek.GetOr(999)
  }

  /** `Math.max(1, company.posts_per_week ?? 3)`. */
  function PostsPerWeek(c: Company): (n: int)
    ensures n >= 1
    ensures c.postsPerWeek == None ==> n == 3
    ensures c.postsPerWeek.Some? ==> n == if c.postsPerWeek.value < 1 then 1 else c.postsPerWeek.value
  {
    var wanted := c.postsPerWeek.GetOr(3);
    if wanted < 1 then 1 else wanted
  }

  function PersonaIds(ps: seq<Persona>): set<Id> {
    set p | p in ps :: p.id
  }

  predicate DistinctKeywordIds(ks: seq<Keyword>) {
    forall i, j :: 0 <= i < j < |ks| ==> ks[i].id != ks[j].id
  }

  function KeywordIdsOf(ks: seq<Keyword>): (ids: seq<Id>)
    ensures |ids| == |ks| && forall i :: 0 <= i < |ks| ==> ids[i] == ks[i].id
  {
    seq(|ks|, i requires 0 <= i < |ks| => ks[i].id)
  }

  function KeywordTextsOf(ks: seq<Keyword>): (texts: seq<string>)
    ensures |texts| == |ks| && forall i :: 0 <= i < |ks| ==> texts[i] == ks[i].keyword
  {
    seq(|ks|, i requires 0 <= i < |ks| => ks[i].keyword)
  }

  /** Pairs up keyword ids and texts position by position: the inverse of splitting keywords into both. */
  function KeywordsOf(ids: seq<Id>, texts: seq<string>): seq<Keyword>
    requires |ids| == |texts|
  {
    seq(|ids|, i requires 0 <= i < |ids| => Keyword(ids[i], texts[i]))
  }

  lemma KeywordsOfParts(ks: seq<Keyword>)
    ensures KeywordsOf(KeywordIdsOf(ks), KeywordTextsOf(ks)) == ks
  {
    var r := KeywordsOf(KeywordIdsOf(ks), KeywordTextsOf(ks));
    assert |r| == |ks|;
    forall i | 0 <= i < |ks| ensures r[i] == ks[i] {
      assert r[i] == Keyword(ks[i].id, ks[i].keyword);
    }
  }

  function SetOf(ids: seq<Id>): set<Id> {
    set i | i in ids
  }

  // ---- Recent history (the last stored posts) ----

  /** `new Set(recentPosts.map(p => p.title))`. */
  function RecentTitles(recent: seq<RecentPost>): (ts: set<string>)
    ensures forall r :: r in recent ==> r.title in ts
    ensures forall t :: t in ts ==> exists r :: r in recent && r.title == t
  {
    set r | r in recent :: r.title
  }

  /** `new Set(recentPosts.flatMap(p => p.keyword_ids ?? []))`. */
  function RecentKeywordIds(recent: seq<RecentPost>): (ids: set<Id>)
    ensures forall id :: id in ids <==> exists j :: 0 <= j < |recent| && id in recent[j].keywordIds.GetOr([])
  {
    if |recent| == 0 then {}
    else RecentKeywordIds(recent[..|recent| - 1]) + SetOf(recent[|recent| - 1].keywordIds.GetOr([]))
  }

  /** `recentAuthorIds.slice(0, 3)`. */
  function TopRecentAuthors(recent: seq<RecentPost>): (top: seq<Id>)
    ensures |top| == if |recent| < 3 then |recent| else 3
    ensures forall i :: 0 <= i < |top| ==> top[i] == recent[i].authorPersonaId
  {
    var n := if |recent| < 3 then |recent| else 3;
    seq(n, i requires 0 <= i < n => recent[i].authorPersonaId)
  }

  // ---- The posts generated so far in this run ----

  /** How many of `posts` went to subreddit `id`. */
  function Uses(posts: seq<Post>, id: Id): nat {
    if |posts| == 0 then 0
    else Uses(posts[..|posts| - 1], id) + (if posts[|posts| - 1].subredditId == id then 1 else 0)
  }

  /** The keyword ids `posts` used. */
  function UsedKeywordIds(posts: seq<Post>): set<Id> {
    if |posts| == 0 then {}
    else UsedKeywordIds(posts[..|posts| - 1]) + SetOf(posts[|posts| - 1].keywordIds)
  }

  function PostTitles(posts: seq<Post>): set<string> {
    set p | p in posts :: p.title
  }

  function SubredditIdsOf(posts: seq<Post>): (ids: seq<Id>)
    ensures |ids| == |posts| && forall i :: 0 <= i < |posts| ==> ids[i] == posts[i].subredditId
  {
    seq(|posts|, i requires 0 <= i < |posts| => posts[i].subredditId)
  }

  function AuthorIdsOf(posts: seq<Post>): (ids: seq<Id>)
    ensures |ids| == |posts| && forall i :: 0 <= i < |posts| ==> ids[i] == posts[i].authorPersonaId
  {
    seq(|posts|, i requires 0 <= i < |posts| => posts[i].authorPersonaId)
  }
}
