/**
 * The per-post choices of the TypeScript handler `src/app/api/generate-week/route.ts`. Each pick shuffles its pool and
 * takes the first candidate that meets its constraints, falling back to a
 * random member of the whole pool when none does.
 */
module Selection {
  import opened Options
  import opened Random
  import opened Entities

  /** The rotation state the generation loop carries from one post to the next. */
  datatype Rotation = Rotation(
    counts: map<Id, int>,        // subredditWeekCounts
    usedSubredditIds: seq<Id>,   // usedSubredditIds
    usedPersonaIds: seq<Id>,     // usedPersonaIds
    keywordIds: set<Id>,         // recentKeywordIds, grown with every chosen keyword
    titles: set<string>          // recentTitles, grown with every chosen title
  )

  /** `counts.get(id) ?? 0`. */
  function Count(counts: map<Id, int>, id: Id): (n: int)
    ensures id in counts ==> n == counts[id]
    ensures id !in counts ==> n == 0
  {
    if id in counts then counts[id] else 0
  }

  /** `counts.set(id, (counts.get(id) ?? 0) + 1)`: one counter goes up by one, no other moves. */
  function Bump(counts: map<Id, int>, id: Id): (r: map<Id, int>)
    ensures Count(r, id) == Count(counts, id) + 1
    ensures forall other :: other != id ==> Count(r, other) == Count(counts, other)
  {
    counts[id := Count(counts, id) + 1]
  }

  // ---- Subreddit ----

  /** Below its weekly cap, and not the subreddit of the previous post. */
  predicate SubredditEligible(s: Subreddit, counts: map<Id, int>, used: seq<Id>): (b: bool)
    ensures b ==> Count(counts, s.id) < Cap(s)
    ensures |used| > 0 && s.id == used[|used| - 1] ==> !b
    ensures used == [] ==> (b <==> Count(counts, s.id) < Cap(s))
  {
    Count(counts, s.id) < Cap(s) && (|used| == 0 || s.id != used[|used| - 1])
  }

  method PickSubreddit(subs: seq<Subreddit>, counts: map<Id, int>, used: seq<Id>, rng: Stream, k0: nat)
    returns (s: Subreddit, k: nat)
    requires |subs| > 0
    ensures s in subs
    ensures (exists x :: x in subs && SubredditEligible(x, counts, used)) ==> SubredditEligible(s, counts, used)
    ensures k0 <= k
  {
    var shuffled;
    shuffled, k := Shuffle(subs, rng, k0);
    assert forall x :: x in subs ==> x in shuffled by {
      forall x | x in subs ensures x in shuffled { assert x in multiset(shuffled); }
    }
    var found := Find(shuffled, x => SubredditEligible(x, counts, used));
    if found.Some? {
      s := found.value;
      assert s in multiset(subs);
    } else {
      s := Sample(subs, rng(k));
      k := k + 1;
    }
  }

  // ---- Author ----

  /** Not the author of the previous post, and not among the first three recent authors. */
  predicate AuthorEligible(p: Persona, used: seq<Id>, topRecent: seq<Id>): (b: bool)
    ensures p.id in topRecent ==> !b
    ensures |used| > 0 && p.id == used[|used| - 1] ==> !b
    ensures used == [] ==> (b <==> p.id !in topRecent)
  {
    (|used| == 0 || p.id != used[|used| - 1]) && p.id !in topRecent
  }

  method PickAuthor(personas: seq<Persona>, used: seq<Id>, topRecent: seq<Id>, rng: Stream, k0: nat)
    returns (a: Persona, k: nat)
    requires |personas| > 0
    ensures a in personas
    ensures (exists p :: p in personas && AuthorEligible(p, used, topRecent)) ==> AuthorEligible(a, used, topRecent)
    ensures k0 <= k
  {
    var shuffled;
    shuffled, k := Shuffle(personas, rng, k0);
    assert forall p :: p in personas ==> p in shuffled by {
      forall p | p in personas ensures p in shuffled { assert p in multiset(shuffled); }
    }
    var found := Find(shuffled, p => AuthorEligible(p, used, topRecent));
    if found.Some? {
      a := found.value;
      assert a in multiset(personas);
    } else {
      a := Sample(personas, rng(k));
      k := k + 1;
    }
  }

  // ---- Keywords ----

  /** `keywords.filter(k => !seen.has(k.id))`. */
  function FreshKeywords(keywords: seq<Keyword>, seen: set<Id>): (r: seq<Keyword>)
    ensures forall x :: x in r <==> x in keywords && x.id !in seen
    ensures |r| <= |keywords|
    ensures DistinctKeywordIds(keywords) ==> DistinctKeywordIds(r)
  {
    if |keywords| == 0 then []
    else
      var rest := FreshKeywords(keywords[1..], seen);
      assert forall x :: x in keywords <==> x == keywords[0] || x in keywords[1..];
      DistinctTail(keywords);
      if keywords[0].id in seen then rest
      else
        DistinctCons(keywords, rest);
        [keywords[0]] + rest
  }

  /** Dropping the head keeps ids unique, and the head's id is not among the rest. */
  lemma DistinctTail(keywords: seq<Keyword>)
    requires |keywords| > 0
    ensures DistinctKeywordIds(keywords) ==> DistinctKeywordIds(keywords[1..])
    ensures DistinctKeywordIds(keywords) ==> forall x :: x in keywords[1..] ==> x.id != keywords[0].id
  {
    if DistinctKeywordIds(keywords) {
      var tail := keywords[1..];
      forall i, j | 0 <= i < j < |tail| ensures tail[i].id != tail[j].id {
        assert tail[i] == keywords[i + 1] && tail[j] == keywords[j + 1];
      }
      forall x | x in tail ensures x.id != keywords[0].id {
        var m :| 0 <= m < |tail| && tail[m] == x;
        assert keywords[m + 1] == x;
      }
    }
  }

  /** Putting the head in front of a filtered tail keeps ids unique. */
  lemma DistinctCons(keywords: seq<Keyword>, rest: seq<Keyword>)
    requires |keywords| > 0
    requires DistinctKeywordIds(keywords[1..]) ==> DistinctKeywordIds(rest)
    requires forall x :: x in rest ==> x in keywords[1..]
    ensures DistinctKeywordIds(keywords) ==> DistinctKeywordIds([keywords[0]] + rest)
  {
    if DistinctKeywordIds(keywords) {
      DistinctTail(keywords);
      var r := [keywords[0]] + rest;
      forall i, j | 0 <= i < j < |r| ensures r[i].id != r[j].id {
        assert r[j] == rest[j - 1] && rest[j - 1] in rest;
        if i > 0 {
          assert r[i] == rest[i - 1];
        }
      }
    }
  }

  /** The pool a post draws its keywords from: the fresh ones when at least six remain, else all. */
  function KeywordPool(keywords: seq<Keyword>, seen: set<Id>): (pool: seq<Keyword>)
    ensures forall k :: k in pool ==> k in keywords
    ensures |FreshKeywords(keywords, seen)| >= 6 ==> forall k :: k in pool ==> k.id !in seen
    ensures |FreshKeywords(keywords, seen)| < 6 ==> pool == keywords
    ensures |keywords| > 0 ==> |pool| > 0
  {
    var unseen := FreshKeywords(keywords, seen);
    if |unseen| >= 6 then unseen else keywords
  }

  /** A draw without replacement from a pool with distinct ids has distinct ids. */
  lemma SubBagKeepsDistinctIds(chosen: seq<Keyword>, pool: seq<Keyword>)
    requires DistinctKeywordIds(pool) && multiset(chosen) <= multiset(pool)
    ensures DistinctKeywordIds(chosen)
  {
    assert Distinct(pool);
    SubBagOfDistinct(chosen, pool);
    forall i, j | 0 <= i < j < |chosen| ensures chosen[i].id != chosen[j].id {
      assert chosen[i] in multiset(pool) && chosen[j] in multiset(pool);
      var a :| 0 <= a < |pool| && pool[a] == chosen[i];
      var b :| 0 <= b < |pool| && pool[b] == chosen[j];
      assert a != b;
    }
  }

  method PickKeywords(keywords: seq<Keyword>, seen: set<Id>, rng: Stream, k0: nat)
    returns (chosen: seq<Keyword>, k: nat)
    requires |keywords| > 0
    ensures multiset(chosen) <= multiset(KeywordPool(keywords, seen))
    ensures var n := |KeywordPool(keywords, seen)|; if n >= 2 then 2 <= |chosen| <= 3 else |chosen| == n
    ensures |FreshKeywords(keywords, seen)| >= 6 ==> forall i :: 0 <= i < |chosen| ==> chosen[i].id !in seen
    ensures DistinctKeywordIds(keywords) ==> DistinctKeywordIds(chosen)
    ensures k0 <= k
  {
    var pool := KeywordPool(keywords, seen);
    var count := RandInt(2, 3, rng(k0));
    chosen, k := SampleManyUnique(pool, count, rng, k0 + 1);
    forall i | 0 <= i < |chosen| ensures chosen[i] in pool {
      assert chosen[i] in multiset(pool);
    }
    if DistinctKeywordIds(keywords) {
      SubBagKeepsDistinctIds(chosen, pool);
    }
  }

  // ---- Title ----

  /** `titleTemplates.filter(t => !used.has(t))`. */
  function AvailableTitles(titles: seq<string>, used: set<string>): (r: seq<string>)
    ensures forall t :: t in r <==> t in titles && t !in used
  {
    if |titles| == 0 then []
    else
      assert forall t :: t in titles <==> t == titles[0] || t in titles[1..];
      (if titles[0] in used then [] else [titles[0]]) + AvailableTitles(titles[1..], used)
  }

  /** A template not used recently or earlier in the run, or any template once all six are used. */
  function PickTitle(titles: seq<string>, used: set<string>, u: Unit): (t: string)
    requires |titles| > 0
    ensures t in titles
    ensures (exists x :: x in titles && x !in used) ==> t !in used
  {
    var available := AvailableTitles(titles, used);
    if |available| > 0 then Sample(available, u) else Sample(titles, u)
  }

  // ---- Commenters ----

  /** `ps.filter(p => p.id !== id)`. */
  function Without(ps: seq<Persona>, id: Id): (r: seq<Persona>)
    ensures forall p :: p in r <==> p in ps && p.id != id
    ensures PersonaIds(r) == PersonaIds(ps) - {id}
  {
    if |ps| == 0 then []
    else
      var rest := Without(ps[1..], id);
      assert forall p :: p in ps <==> p == ps[0] || p in ps[1..];
      var r := (if ps[0].id == id then [] else [ps[0]]) + rest;
      assert forall p :: p in r <==> p in ps && p.id != id;
      r
  }

  datatype Commenters = Commenters(c1: Persona, c2: Persona, c3: Persona)

  lemma NonEmptyIds(ps: seq<Persona>)
    ensures |ps| > 0 <==> PersonaIds(ps) != {}
  {
    if |ps| > 0 {
      assert ps[0].id in PersonaIds(ps);
    }
  }

  /**
   * Three commenters drawn one after another from the personas other than
   * the author, each excluding the ones drawn before it. Drawing from an
   * empty pool yields `undefined` in the handler, and reading its bio then
   * throws; that is None here.
   */
  function PickCommenters(personas: seq<Persona>, authorId: Id, u1: Unit, u2: Unit, u3: Unit): (r: Option<Commenters>)
    ensures r.None? <==> |PersonaIds(personas) - {authorId}| < 3
    ensures r.Some? ==> var c := r.value;
      && c.c1 in personas && c.c2 in personas && c.c3 in personas
      && c.c1.id != authorId && c.c2.id != authorId && c.c3.id != authorId
      && c.c1.id != c.c2.id && c.c1.id != c.c3.id && c.c2.id != c.c3.id
  {
    var others := PersonaIds(personas) - {authorId};
    var pool1 := Without(personas, authorId);
    NonEmptyIds(pool1);
    if |pool1| == 0 then None
    else
      var c1 := Sample(pool1, u1);
      var pool2 := Without(pool1, c1.id);
      assert c1.id in others;
      assert PersonaIds(pool2) == others - {c1.id};
      assert |PersonaIds(pool2)| == |others| - 1;
      NonEmptyIds(pool2);
      if |pool2| == 0 then None
      else
        var c2 := Sample(pool2, u2);
        var pool3 := Without(pool2, c2.id);
        assert c2.id in others - {c1.id};
        assert PersonaIds(pool3) == others - {c1.id} - {c2.id};
        assert |PersonaIds(pool3)| == |others| - 2;
        NonEmptyIds(pool3);
        if |pool3| == 0 then None
        else
          Some(Commenters(c1, c2, Sample(pool3, u3)))
  }
}
